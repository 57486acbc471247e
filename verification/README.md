# A verified model of a small network runtime

The runtime is an epoll thread pool (`tst`), with an HTTP and WebSocket front end and a client of
the Asterisk Manager Interface (`amiproc`) on top of it.  The model covers the pieces whose
guarantees cross functions and threads:

* **Dispatch protocol** (`Dispatch`, `DispatchEffects`, `DispatchPlaces`, `DispatchFrames`, `DispatchSteps`,
  `DispatchSafety`, `DispatchRuns`, `DispatchJobs`, `DispatchDeals`).  A step system of the dispatcher thread, any number of workers, outside callers,
  shutdown and the kernel's descriptor table.  Descriptors are reused; a connection is named by a
  generation that never is.  Every access to shared state, or group of accesses under one mutex, is
  one step, so the dispatcher's unlocked idle test, the worker's unlocked tests of its own state, the
  critical sections and the stages of `closesocket` interleave freely.  Ownership of a socket by a
  worker ends at the re-arm, not where the worker clears its pointer.  `DispatchJobs` and `DispatchDeals`
  say what uninterrupted runs of a worker, the dispatcher or an outsider come to.
* **Resumable transfer and framing** (`Transfer`, `WebSocketSpec`, `WebSocket`, `WebSocketWriter`,
  `Framing`, `Http`, `HttpRequests`, `AmiReader`).  TST_DATA buffers and connections are classes.  How much the kernel
  moves per read or write, and how the stream is cut into arrivals, are arguments, so the results
  hold for every choice.  `WebSocketSpec` (RFC 6455, sections 5.2 and 5.3) and `Framing` say
  independently of any reading what the frames or messages of a byte stream are.
* **SHA-1** (`Sha1Spec`, `Sha1Transform`, `Sha1`) against FIPS 180-4, over bit vectors; elsewhere a
  byte is a number below 256.  `Sha1Example` computes the published digest of "abc" from `Sha1Spec`.
* **AMI correlation** (`AmiProtocol`, `AmiRuns`).  A step system of any number of threads in
  `ami_sync` and `ami_async` and the one handler, over two mutexes, a condition variable, the pending
  pointer and the counters; the handler's tests before it locks are steps of their own.
* **In-place parsers and codecs** (`Base64`, `HttpHead`, `AmiEvents`, `QueryString`, `UrlDecode`, over
  `CStrings`): arrays that are overwritten while they are read, proved equal to functions on strings
  that are then shown to be inverses of rendering or encoding.

`Wrappers` holds `Option`.

## What the code does not guarantee

These were found false of the code as it is written; the code is modelled unchanged, with a run or
an input that shows the failure and the exact condition under which the property holds.

* A worker that times out tests its state without its mutex.  A job posted meanwhile is dropped at the
  end of the idle branch or by the final reset, and the connection can be lost for good
  (`DispatchRuns.IdleBranchDropsJob`, `DispatchRuns.IdleRaceLosesConnection`,
  `DispatchRuns.ResetDropsJob`); a worker that reads `tst_run` between the dispatcher's two writes
  dereferences a null socket (`DispatchRuns.NullSocketRun`).
* `need_send` and outside calls of `closesocket` break the one-place property if they touch a
  connection that is not armed, although the repository's README recommends `need_send` for any
  connection (`DispatchRuns.NeedSendRun`, `DispatchRuns.OutsideCloseRun`); so does a call for a number
  without a socket if the number is in use when it acts (`DispatchRuns.ReusedCloseRun`,
  `DispatchRuns.ReusedDetachRun`).  Even an outside `closesocket` of an armed connection makes the
  dispatcher dereference `end()` if epoll reports the descriptor between the erase and the
  EPOLL_CTL_DEL (`DispatchRuns.ArmedCloseRun`).  `DispatchSafety.DisciplineIsExact` says for every step
  of every thread when it is safe.
* After a hang-up of the listener `destroy` returns at once, so nothing is closed or deleted any more:
  `DispatchRuns.HangupRun` is a run that leaves a connection open and registered, and
  `DispatchSafety.HangupStrands` says that it stays so.  `DispatchSafety.WalkedExactlyWhen`: a run gets to
  the walk of `m_connect` if and only if `destroy` was called while `m_main_run` was still set.
* `ami_sync` leaves `pResp` on the record of a call that timed out.  A response can then complete the
  call after it returned, and after an `ami_async` even with another action's response
  (`AmiRuns.LateCompletion`, `AmiRuns.LateCompletionWithAnotherResponse`).  The handler's tests come
  before its lock, so this happens to a single call as well (`AmiRuns.LateCompletionAlone`), and the
  handler can clear the `pResp` of a call that has only just asked
  (`AmiRuns.LateResponseForgetsNext`).  `AmiRuns.LateWindow`, `AmiRuns.DropForgets` and
  `AmiRuns.RecordsStayRightExactlyWhen` say exactly when.
* On an output event of the AMI connection the automatic sending writes again what the last action has
  behind `com_len`, which still counts the login and earlier output events (`AmiReader.TailTwice`: the part
  that is longer than the login), and then `ami_event` empties its receive buffer, whatever it holds
  (`AmiReader.OutputEventLosesMessage`).  By `AmiReader.Connection.OutputJob` nothing is written again if
  and only if `com_len` has reached `req_len` or the kernel takes nothing, and nothing is lost if and only
  if the buffer is empty or something of the action is left.
* `ws_writetext` writes lengths above 126 in host order
  (`WebSocketWriter.TextRoundTripExactly`, `WebSocketWriter.LongTextIsRefused`).
* The search for `?` in a URI without one goes on through the version into the first header name:
  `HttpHead.QuestionMarkLeaks` parses such a head, `HttpHead.RecoveredExactlyWhen` has the condition.
* A malformed `%` behind an escape is replaced by an older character: `UrlDecode.MalformedAfterEscape`
  is an input, `UrlDecode.RewrittenIsPlainExactly` the condition, for all inputs.
* `parse_amievent` steps over the end of its text if and only if the text ends with the end of a line, not
  a blank one, that has a key: a `:` behind its first character, or in front if the line before has none
  (`AmiEvents.StepsOverExactly`).  Where no line begins with a `:` that is any `:` in the last line
  (`AmiEvents.StepsOverByColon`); `AmiEvents.OneLineEndOverruns` has the inputs of one line.

## Assumptions

* `epoll_ctl` succeeds; single reads and writes of shared fields and look-ups in `m_connect` are atomic
  and take place in program order; `pthread_cond_timedwait` of a worker returns success or a time-out.
* No outside `closesocket` overlaps the walk of `destroy`.  `tst_idle` is never assigned, so the idle
  branch ends with `tst_suspend`.  No worker is cancelled by force.  User functions never return `tst_run`.
* `read` and `write` return a count between 0 and what was asked for; the code adds it unchecked.
  When a WebSocket frame begins its header has arrived.  Buffers hold at least 14 bytes for WebSocket.
* `errno` is not 0 after `pthread_cond_timedwait` has failed for another reason than a time-out (the code
  stores it as the result).  `actionid` does not wrap; increments of the wait counter are atomic; an AMI action fits the send buffer.
* The length announced by a request head is not negative; the parsers' texts contain no NUL, a head has
  its two spaces, at most 30 headers and a zero byte behind its end, an AMI message at most 100 lines.
* 32-bit sums in SHA-1 are taken modulo 2^32; the precondition of `Update` is what keeps the two of
  them that must not wrap from wrapping.  Elsewhere counts stay below the buffer size.

## Model

| member | source | states |
|---|---|---|
| `DispatchSafety.DisciplineIsExact` | tst/tst.cpp:241-458 | from a state satisfying the invariant, a step of any thread leads to a safe state if and only if it is not one of seven steps that the code does not check |
| `DispatchSafety.OnePlaceEach` | tst/tst.cpp:241-406 | over every disciplined run each live connection is armed and registered, pending, held by the dispatcher, owned by one worker or with one outside closer from its erase on, and in one of these only |
| `DispatchSafety.EventsNameTheirConnection` | tst/tst.cpp:370-376 | every pending event still names the connection epoll reported although descriptors are reused; the look-up succeeds and the garbage and not-in-map branches are never taken |
| `DispatchSafety.PostedJobStays` | tst/tst.cpp:388-401 | no step of any thread wipes a posted job: it stays until its worker starts on that socket or ends at shutdown |
| `DispatchSafety.PostedJobIsNeverWiped` | tst/tst.cpp:500-670 | the same over any stretch of a run in which the worker neither takes the job nor ends because the pool stops |
| `DispatchSafety.TouchesOnlyItsOwn` | tst/tst.cpp:541-670 | dispatcher, worker or outside closer touch a socket only while the socket lives and is in that thread's place alone; after the re-arm its old worker never does |
| `DispatchSafety.NeverTwice` | tst/tst.cpp:804-849 | no connection is closed or deleted twice, and when destroy() has walked m_connect every accepted one was closed and deleted exactly once |
| `DispatchSafety.HangupStrands` | tst/tst.cpp:804-811 | once the pool has stopped by itself destroy() changes nothing, and only an outside closesocket takes a connection out of m_connect |
| `DispatchSafety.WalkedExactlyWhen` | tst/tst.cpp:804-814 | in every run, when the threads have ended, destroy() goes on to walk m_connect if and only if it was called while m_main_run was set; otherwise the pool is abandoned |
| `DispatchSafety.InvIsSafe` | tst/tst.cpp:636-669 | the invariant implies the safety properties |
| `DispatchSafety.RunKeeps` | tst/tst.cpp:241-458 | every state of every disciplined run satisfies the invariant |
| `DispatchSafety.DispatcherKeeps` | tst/tst.cpp:241-406 | every dispatcher step keeps the invariant, given that no descriptor is reported between its erase and its EPOLL_CTL_DEL |
| `DispatchSafety.WorkerKeeps` | tst/tst.cpp:500-715 | every worker step keeps it, given that tst_socket is read after it was written and no job was posted before the idle branch ends or the state is reset |
| `DispatchSafety.OutsiderKeeps` | tst/tst.cpp:873-947 | outside need_send and every stage of an outside closesocket keep it under the stated discipline |
| `DispatchSafety.ShutdownKeeps` | tst/tst.cpp:408-422 | stopping, joining and destroying keep it |
| `DispatchSafety.FetchBreaks` | tst/tst.cpp:901-920 | a descriptor reported while a closesocket() call has erased it but not yet removed it from the epoll set is pending and being closed at once |
| `DispatchSafety.NeedSendBreaks` | tst/tst.cpp:873-894 | need_send on a registered connection that is not armed puts it in two places |
| `DispatchSafety.OutsideCloseBreaks` | tst/tst.cpp:896-947 | an outside closesocket of a registered connection that is not armed strands its holder |
| `DispatchSafety.EmptyCloseBreaks` | tst/tst.cpp:896-947 | a call that found no socket takes the descriptor or its epoll entry from the connection behind it, if there is one |
| `DispatchSafety.TakeBreaks` | tst/tst.cpp:541-551 | reading tst_socket before the dispatcher has written it dereferences a null pointer |
| `DispatchSafety.ResetBreaks` | tst/tst.cpp:705-714 | the final reset drops a job that was posted between the worker's tests |
| `DispatchSafety.IdleDoneBreaks` | tst/tst.cpp:672-688 | ending the idle branch over a posted job leaves a waiting worker with a socket but not running |
| `DispatchRuns.IdleBranchDropsJob` | tst/tst.cpp:672-688 | a concrete run in which the idle branch drops a posted job |
| `DispatchRuns.IdleRaceLosesConnection` | tst/tst.cpp:388-401 | the run continued: a live, registered connection that is in no place |
| `DispatchRuns.NullSocketRun` | tst/tst.cpp:541-551 | a run in which a worker dereferences a null tst_socket |
| `DispatchRuns.ResetDropsJob` | tst/tst.cpp:705-714 | a run in which the final reset drops a posted job |
| `DispatchRuns.NeedSendRun` | tst/tst.cpp:873-894 | a run in which need_send arms a connection that is being dispatched |
| `DispatchRuns.OutsideCloseRun` | tst/tst.cpp:896-947 | a run in which a worker works on a TST_SOCKET that was deleted |
| `DispatchRuns.ArmedCloseRun` | tst/tst.cpp:901-920 | a run, disciplined up to the report, in which the dispatcher dereferences end() |
| `DispatchRuns.ReusedCloseRun` | tst/tst.cpp:921-942 | a run in which a call without a socket closes the descriptor of a new connection |
| `DispatchRuns.ReusedDetachRun` | tst/tst.cpp:916-920 | the same with its entry of the epoll set |
| `DispatchRuns.HangupRun` | tst/tst.cpp:317-319 | a disciplined run in which the listener hangs up and a connection stays open and registered for good |
| `DispatchJobs.DisconnectCloses` | tst/tst.cpp:635-670 | a job that ends with tst_disconnect: the worker's next steps are enabled one after the other and leave the connection out of m_connect and epoll, closed and freed once each, and the worker idle |
| `DispatchJobs.OthersKeep` | tst/tst.cpp:642-670 | a job that ends otherwise: the connection stays registered and is armed again, for output exactly after tst_send, and the worker holds it no longer |
| `DispatchJobs.TakesJob` | tst/tst.cpp:500-551 | a worker that finds tst_run works on the socket it was given |
| `DispatchJobs.IdleChangesNothing` | tst/tst.cpp:672-688 | a time-out without a job changes nothing |
| `DispatchJobs.ToldToExitEnds` | tst/tst.cpp:690-700 | a worker told tst_exit ends |
| `DispatchJobs.OtherStatesReset` | tst/tst.cpp:702-714 | any other verdict of the last job becomes tst_suspend on the next turn, and nothing else happens |
| `DispatchJobs.StoppedWorkerEnds` | tst/tst.cpp:500-500 | once m_work_run is cleared a worker ends at the head of its loop |
| `DispatchDeals.GoesToFirstIdle` | tst/tst.cpp:370-401 | a reported connection is given to the first idle worker, which gets that socket and tst_run, and the event is used up |
| `DispatchDeals.StaysWithoutIdle` | tst/tst.cpp:379-405 | if no worker is idle nothing changes and the event stays |
| `DispatchDeals.DeadIsClosed` | tst/tst.cpp:351-363 | a connection that hung up is unregistered, closed and freed once each |
| `DispatchDeals.AcceptedIsArmed` | tst/tst.cpp:257-308 | a client that m_fconnected lets in is registered and armed, for output exactly after tst_send, and the listener is armed again |
| `DispatchDeals.RefusedIsClosed` | tst/tst.cpp:279-301 | a client that it refuses is closed and freed once each, never armed, and the listener is armed again |
| `DispatchDeals.ReportDisarms` | tst/tst.cpp:243-246 | epoll disarms exactly what it reports |
| `DispatchDeals.NeedSendAsks` | tst/tst.cpp:873-894 | need_send arms that descriptor for output and touches no other |
| `DispatchDeals.OutsideCloses` | tst/tst.cpp:896-947 | an uninterrupted outside closesocket of a registered connection unregisters, closes and frees it once each |
| `DispatchDeals.StopTellsIdle` | tst/tst.cpp:408-422 | stopping tells exactly the idle workers to exit |
| `DispatchSteps.PostKeeps` | tst/tst.cpp:389-401 | assigning a job moves the connection from the dispatcher to one worker and keeps everything else |
| `DispatchSteps.ReleaseKeeps` | tst/tst.cpp:642-666 | the re-arm ends the worker's ownership and keeps the invariant |
| `DispatchSteps.ClearKeeps` | tst/tst.cpp:666-670 | clearing tst_socket wipes no newly assigned job |
| `DispatchSteps.CloseStepKeeps` | tst/tst.cpp:635-640 | each stage of closesocket run by a worker keeps the invariant |
| `DispatchSteps.ShutStepKeeps` | tst/tst.cpp:351-363 | each stage of closesocket run by the dispatcher keeps the invariant |
| `DispatchSteps.AcceptKeeps` | tst/tst.cpp:257-268 | accepting keeps the invariant, whatever descriptor number is reused |
| `DispatchSteps.FetchKeeps` | tst/tst.cpp:243-252 | one-shot events move connections from the epoll set to the batch |
| `DispatchSteps.DestroyOneKeeps` | tst/tst.cpp:829-848 | each turn of the walk of destroy() keeps the counts of closes and deletes |
| `Transfer.Socket.Read` | tst/tst.cpp:576-576 | the bytes read go to the buffer in order and leave the queue, nothing else changes |
| `Transfer.Socket.Write` | tst/tst.cpp:601-601 | the bytes taken go to the wire in order |
| `Transfer.Data.ResetData` | tst/tst.h:104-104 | req_pos, req_len and com_len are zero and so is the buffer |
| `Transfer.Data.AutoReceive` | tst/tst.cpp:551-588 | exactly as many arrived bytes as the kernel moves, and none beyond req_len, are appended; the user function is due exactly when the request is complete or there is none |
| `Transfer.Data.AutoSend` | tst/tst.cpp:589-611 | exactly the part of the request behind com_len that the kernel takes is written |
| `Transfer.Sender.AutoSend` | tst/tst.cpp:589-611 | com_len grows by what the kernel took up to req_len, the wire holds exactly that part of the request, and only a complete request runs the user function |
| `Transfer.Sender.OutputJob` | tst/tst.cpp:589-657 | the socket stays armed for output while something is left |
| `Transfer.Sender.OutputJobs` | tst/tst.cpp:589-657 | under any sequence of short writes the wire holds a prefix of the request of exactly the length taken, and the user function runs once, when and only when all of it was taken |
| `WebSocketSpec.XorBit` | amiproc/websocket.cpp:278-278 | the masking operation is exclusive or, bit by bit |
| `WebSocketSpec.MaskTwice` | amiproc/websocket.cpp:273-280 | masking is its own inverse (RFC 6455, section 5.3) |
| `WebSocketSpec.MaskOfKeyIsZero` | amiproc/websocket.cpp:273-280 | byte i is masked with byte i modulo 4 of the key: the key, repeated, masks itself to zeros |
| `WebSocketSpec.MaskWithZeros` | amiproc/websocket.cpp:273-280 | and a key of zeros masks nothing |
| `WebSocketSpec.MaskedHello` | amiproc/websocket.cpp:198-280 | the masked example frame of RFC 6455, section 5.7, is the text "Hello" |
| `WebSocketSpec.UnmaskedHello` | amiproc/websocket.cpp:198-270 | so is the unmasked one |
| `WebSocketSpec.LongerForms` | amiproc/websocket.cpp:212-229 | the headers of section 5.7 for 256 bytes and for 64 KiB are read as these lengths |
| `WebSocketSpec.LimitIsTenMegabytes` | amiproc/websocket.cpp:224-239 | for every 64-bit length the header is refused if and only if it is above 10 * 1024 * 1024 |
| `WebSocketSpec.FirstOfEncode` | amiproc/websocket.cpp:198-243 | decoding inverts encoding in all three length forms, masked or not |
| `WebSocketSpec.FramesCompose` | amiproc/websocket.cpp:198-270 | complete frames can be read off before what follows them arrives |
| `WebSocketSpec.RoundTrip` | amiproc/websocket.cpp:198-304 | a stream of well-formed frames up to 10 MB is read back as sent, with nothing left |
| `WebSocket.LengthIsRight` | amiproc/websocket.cpp:212-229 | the 7-bit, ntohs and ntohl forms of the code are the payload lengths of section 5.2 |
| `WebSocket.Connection.ReadHeader` | amiproc/websocket.cpp:198-243 | exactly the header is consumed and opcode, key and length are those of section 5.2; it is refused exactly when the length is over 10 MB |
| `WebSocket.Connection.Grow` | amiproc/websocket.cpp:245-257 | the buffer holds the payload and keeps its contents |
| `WebSocket.Connection.BeginPayload` | amiproc/websocket.cpp:260-270 | what was read and what is unread are together what had arrived, and req_pos + req_len = data_len <= s_len if something is missing |
| `WebSocket.Connection.Unmask` | amiproc/websocket.cpp:273-280 | the buffer is unmasked in place |
| `WebSocket.Connection.Deliver` | amiproc/websocket.cpp:296-304 | the callback gets the next frame of the stream and the connection is ready for another |
| `WebSocket.Connection.InputJob` | amiproc/websocket.cpp:198-304 | every input event keeps the invariant: delivered, held and unread bytes are together what arrived |
| `WebSocket.Connection.DeliveredInOrder` | amiproc/websocket.cpp:296-304 | at any time the callbacks are a prefix of the frames of the stream |
| `WebSocket.Connection.DeliveredInFull` | amiproc/websocket.cpp:296-304 | when nothing more can be read they are all of them |
| `WebSocket.Serve` | amiproc/websocket.cpp:198-304 | for every way of cutting the stream into arrivals and reads, and every keeping verdict per job, the callbacks are exactly the frames of the stream |
| `WebSocket.ServeSent` | amiproc/websocket.cpp:198-304 | the callbacks are the frames that were encoded, however their encoding arrives |
| `WebSocket.RunEvents` | amiproc/websocket.cpp:198-304 | over any sequence of arrivals and jobs with a verdict each the callbacks are a prefix of the frames of the stream, and all of them whenever nothing is left to do and the connection was kept |
| `WebSocketWriter.WriteText` | amiproc/websocket.cpp:42-68 | for every two short writes what reaches the wire and what is returned; it is the frame if and only if both were complete; a null text is reported |
| `WebSocketWriter.LongTextIsRefused` | amiproc/websocket.cpp:60-65 | a text of 127 or more bytes below 2^32 makes the reader refuse the connection |
| `WebSocketWriter.TextRoundTripExactly` | amiproc/websocket.cpp:42-68 | a text is read back if and only if it has at most 126 bytes |
| `Framing.HeadIs` | amiproc/http.cpp:288-302 | the shortest prefix that ends in CR LF CR LF is unique |
| `Framing.MessagesCompose` | amiproc/http.cpp:281-331 | complete messages can be read off before what follows them arrives |
| `Framing.MessagesOfStream` | amiproc/http.cpp:413-428 | heads with bodies of the announced length, put one behind the other, are told apart again |
| `Framing.RefusedBehind` | amiproc/http.cpp:304-319 | a message that does not fit never will, whatever follows |
| `Http.Connection.ReadHead` | amiproc/http.cpp:283-302 | reading stops at the first CR LF CR LF, the counted bytes or the end of the buffer, and moves bytes in order only |
| `Http.Connection.OnHead` | amiproc/http.cpp:332-428 | a complete head is declined with 505, refused with 413, followed by exactly its body or routed |
| `Http.Connection.Receive` | tst/tst.cpp:551-588 | the body is received up to its last byte and no further |
| `Http.Connection.Route` | amiproc/http.cpp:442-519 | the route gets head and body of the next request if and only if there is one for it; unless it closes, the connection is as new |
| `Http.Connection.Decline` | amiproc/http.cpp:490-526 | a request without a route is not delivered, and the connection is no longer served |
| `Http.Connection.InputJob` | amiproc/http.cpp:281-488 | every input event keeps the invariant and delivers at most one request |
| `Http.Connection.OutputJob` | amiproc/http.cpp:521-526 | an output event closes the connection and changes nothing delivered |
| `Http.Connection.DeliveredInOrder` | amiproc/http.cpp:473-488 | at any time the routed requests are a prefix of those of the stream, and all of them are for routes |
| `Http.Connection.DeliveredInFull` | amiproc/http.cpp:473-488 | once everything is read they are all of them up to one that no route gets, also where the next one is refused |
| `Http.Serve` | amiproc/http.cpp:281-519 | for every way of cutting a pipelined stream, and every keeping verdict per job, the routed requests are exactly its messages (shortest prefix to CR LF CR LF plus announced body) up to one that no route gets |
| `Http.RunEvents` | amiproc/http.cpp:281-526 | over any sequence of arrivals, stalled or short reads, verdicts and output events they are a prefix of these, and all of them whenever everything is read and no event closed |
| `HttpRequests.AtoiOfDecimal` | amiproc/http.cpp:413-413 | atoi reads a length back from its decimal form |
| `HttpRequests.AtoiInText` | amiproc/http.cpp:413-413 | so it does behind spaces and one plus sign, and in front of anything that is no digit |
| `HttpRequests.AtoiWithoutDigits` | amiproc/http.cpp:413-413 | and without digits the length is 0 |
| `HttpRequests.SplitOfText` | amiproc/http.cpp:377-393 | the header lines of a rendered head are found again |
| `HttpRequests.HeadEndsOnce` | amiproc/http.cpp:288-302 | a rendered head holds CR LF CR LF at its end only |
| `HttpRequests.JudgeHead` | amiproc/http.cpp:333-519 | the parser of the code run on any head of two words, and for a supported version CR LF and header lines without a lone CR behind it, finds the announced length by atoi of the Content-Length header, and sorts the request by version, upgrade headers, method and decoded path, as the functions on the text of the head do |
| `HttpRequests.AnnouncesItsBody` | amiproc/http.cpp:413-425 | the length taken from a rendered head is that of its Content-Length header |
| `HttpRequests.AnnouncesExactly` | amiproc/http.cpp:413-413 | for every rendered request it is atoi of the first Content-Length header, or 0 |
| `HttpRequests.RefusedExactly` | amiproc/http.cpp:304-425 | a rendered request is refused if and only if its head does not leave a byte of the buffer free or its body does not fit behind the head |
| `HttpRequests.IsRouted` | amiproc/http.cpp:442-488 | a GET or POST for a registered path that asks for no upgrade is routed |
| `HttpRequests.IsRoutedExactly` | amiproc/http.cpp:442-519 | every rendered request is routed if and only if it is GET or POST, its path has a route and it does not ask for the upgrade to a WebSocket; no other one is |
| `HttpRequests.WrongVersionExactly` | amiproc/http.cpp:355-374 | 505 if and only if the version is not HTTP/1.0 or HTTP/1.1 |
| `HttpRequests.RouteOfPlain` | amiproc/http.cpp:410-410 | a URI without malformed escapes is looked up under its percent-decoded path |
| `HttpRequests.RouteOfEncoded` | amiproc/http.cpp:395-410 | however a path is percent-encoded, and whatever query follows it, it is looked up as it was |
| `HttpRequests.RequestsOfStream` | amiproc/http.cpp:413-428 | a pipelined stream of rendered requests with bodies is cut exactly where they were put together, and all of them are routed |
| `HttpRequests.ServeRequests` | amiproc/http.cpp:281-519 | however requests for registered paths arrive, the routes see each with its body, in order |
| `AmiReader.Connection.ReadMessage` | amiproc/amiproc.cpp:224-242 | reading stops at the first CR LF CR LF, the counted bytes or one byte before the end of the buffer |
| `AmiReader.Connection.InputJob` | amiproc/amiproc.cpp:224-253 | delivered messages, buffer and unread bytes stay together what was sent; at most one message per event |
| `AmiReader.Connection.Login` | amiproc/amiaction.cpp:87-96 | the login is written and leaves req_len and com_len at its length |
| `AmiReader.Connection.Act` | amiproc/amiproc.cpp:124-142 | an action is written from the send buffer, whose req_len stays set and com_len as it was |
| `AmiReader.Connection.OutputJob` | tst/tst.cpp:589-611 | of the last action exactly what is behind com_len is written again, as far as the kernel takes it, nothing if and only if that is nothing; when all is out exactly the buffered bytes received are dropped |
| `AmiReader.OutputEventLosesMessage` | amiproc/amiproc.cpp:357-358 | a run in which a message is lost that way |
| `AmiReader.TailTwice` | amiproc/amiproc.cpp:125-142 | a run from the state after the login: the part of an action that is longer than the login is written twice, and no more |
| `AmiReader.Connection.DeliveredInOrder` | amiproc/amiproc.cpp:224-253 | the delivered messages are a prefix of those of the stream |
| `AmiReader.Serve` | amiproc/amiproc.cpp:224-253 | for every readiness pattern the delivered messages are exactly the split of the stream at CR LF CR LF, up to one that does not fit |
| `AmiReader.RunEvents` | amiproc/amiproc.cpp:224-253 | over any sequence of arrivals, actions and input events with stalled reads they are a prefix of the split, and all of it whenever nothing more can be read |
| `Sha1Transform.SwapIsBigEndian` | amiproc/sha1.c:33-36 | blk0 on a little-endian machine loads big-endian words |
| `Sha1Transform.Blk` | amiproc/sha1.c:41-42 | the 16-word in-place schedule yields word t of the 80-word schedule |
| `Sha1Transform.R0` | amiproc/sha1.c:45-45 | one round with rotated names and blk0 is step t of section 6.1.2 |
| `Sha1Transform.R1` | amiproc/sha1.c:46-46 | the same with blk, rounds 16 to 19 |
| `Sha1Transform.R2` | amiproc/sha1.c:47-47 | the same with Parity, rounds 20 to 39 |
| `Sha1Transform.R3` | amiproc/sha1.c:48-48 | the same with Maj, rounds 40 to 59 |
| `Sha1Transform.R4` | amiproc/sha1.c:49-49 | the same with Parity, rounds 60 to 79 |
| `Sha1Transform.Compress` | amiproc/sha1.c:79-165 | the 80 unrolled rounds are the 80-step loop of section 6.1.2 |
| `Sha1Transform.Transform` | amiproc/sha1.c:54-177 | the state becomes the next intermediate hash value of FIPS 180-4 |
| `Sha1.CarryIsRight` | amiproc/sha1.c:207-210 | the two counter words hold the bit count modulo 2^64 |
| `Sha1.NoWrap` | amiproc/sha1.c:216-216 | the loop test i + 63 < len does not wrap when buffered bytes + len is below 2^32 |
| `Sha1.Context.constructor` | amiproc/sha1.c:182-192 | a context for the empty message |
| `Sha1.Context.Update` | amiproc/sha1.c:198-226 | the context for the message so far becomes the one for message and data, for every message and length below the bound |
| `Sha1.CountByteIsLengthByte` | amiproc/sha1.c:261-264 | finalcount is the 64-bit length field of section 5.1.1 |
| `Sha1.Context.AddZeros` | amiproc/sha1.c:268-272 | exactly the zero bytes of the padding are added |
| `Sha1.Context.Final` | amiproc/sha1.c:231-279 | the digest of FIPS 180-4, and every field wiped |
| `Sha1.Sha1ByteAtATime` | amiproc/sha1.c:282-294 | hashing byte by byte gives the digest of the whole string |
| `Sha1.Sha1OfPieces` | amiproc/sha1.c:198-279 | every way of cutting a message into updates gives its digest |
| `Sha1Example.DigestOfAbc` | amiproc/sha1.c:29-294 | SHA-1 of "abc" is the digest published with the standard |
| `Sha1Example.Rotations` | amiproc/sha1.c:29-29 | the three rotations are rotations to the left by 1, 5 and 30 bits |
| `Sha1Example.LengthFieldIsNumber` | amiproc/sha1.c:261-264 | the length field holds the number of bits, high byte first |
| `AmiProtocol.StepKeeps` | amiproc/amiproc.cpp:103-198 | every step of every thread keeps the invariant |
| `AmiProtocol.HandleKeeps` | amiproc/amiproc.cpp:257-298 | so does the handling of a stale, current or future response |
| `AmiRuns.ReturnsItsOwnResponse` | amiproc/amiproc.cpp:103-170 | in every interleaving a call that returns with mode response and result 0 or -1 returns a response whose ActionID is the one it wrote |
| `AmiRuns.CompletedAtMostOnce` | amiproc/amiproc.cpp:255-298 | no call is completed twice, and mode response means it was completed |
| `AmiRuns.MatchingResponseIsReturned` | amiproc/amiproc.cpp:143-169 | once handled, the matching response to a waiting call is what the call returns, whatever all threads do afterwards, unless its wait ends with a time-out or error |
| `AmiRuns.MatchingResponseGetsThrough` | amiproc/amiproc.cpp:143-169 | and nothing keeps the call from returning it |
| `AmiRuns.StaleResponseIsPassedOver` | amiproc/amiproc.cpp:267-272 | an earlier response leaves a waiting call waiting |
| `AmiRuns.FutureResponseIsRefused` | amiproc/amiproc.cpp:273-279 | a response to an action not yet sent ends the wait with result -2 |
| `AmiRuns.WaitIsReported` | amiproc/amiproc.cpp:143-169 | a wait that timed out or failed returns the record with that as its result, one that was woken returns it as the handler left it; both locks are free afterwards |
| `AmiRuns.ActionIdsDiffer` | amiproc/amiproc.cpp:129-132 | in every run no two calls have asked with the same ActionID |
| `AmiRuns.DanglingWasNotAnswered` | amiproc/amiproc.cpp:155-169 | pResp is left only on calls that were never answered |
| `AmiRuns.LateWindow` | amiproc/amiproc.h:82-85 | a response is taken for a call that has returned if and only if the handler looks while another caller has counted itself and not yet asked |
| `AmiRuns.DropForgets` | amiproc/amiproc.cpp:299-304 | a call waiting when the handler clears pResp is never completed |
| `AmiRuns.RecordsStayRightExactlyWhen` | amiproc/amiproc.cpp:265-293 | handling a response keeps every record's response its own if and only if it does not answer the latest action while pResp belongs to an older one |
| `AmiRuns.OnlyHandlingTouchesRecords` | amiproc/amiproc.cpp:103-198 | no other step can spoil a record |
| `AmiRuns.LateCompletion` | amiproc/amiproc.cpp:155-167 | a run in which a call that returned -8 is completed afterwards |
| `AmiRuns.LateCompletionAlone` | amiproc/amiproc.cpp:257-258 | the same with no other call, the time-out coming between the handler's tests and its lock |
| `AmiRuns.LateResponseForgetsNext` | amiproc/amiproc.cpp:257-303 | a run in which a late response makes the handler forget the next call |
| `AmiRuns.LateCompletionWithAnotherResponse` | amiproc/amiproc.cpp:172-198 | the same with the response to a later ami_async |
| `Base64.EncodedLength` | amiproc/http.cpp:93-116 | the encoding has 4 * ceil(n / 3) letters |
| `Base64.RoundTrip` | amiproc/http.cpp:54-116 | decoding inverts encoding for every byte string (RFC 4648, section 4) |
| `Base64.Table1` | amiproc/http.cpp:93-116 | the 64 letters are those of Table 1 of RFC 4648 |
| `Base64.TestVectors` | amiproc/http.cpp:93-116 | the test vectors of section 10 |
| `Base64.ReverseIs` | amiproc/http.cpp:31-52 | b64reverse tells letters, '=' and the rest apart and gives the value of a letter |
| `Base64.DecodeInto` | amiproc/http.cpp:54-91 | -1 if and only if every position fits and the length is a multiple of 4, else the least position that does not fit or src_len; the output is the decoding of the complete groups before it |
| `Base64.EncodeInto` | amiproc/http.cpp:93-116 | the padded encoding and a NUL |
| `Base64.EncodeThenDecode` | amiproc/http.cpp:54-116 | -1 and the same bytes |
| `HttpHead.RequestLine` | amiproc/http.cpp:338-374 | method and URI are the texts up to the first two spaces; 505 if and only if the version is neither 1.0 nor 1.1 |
| `HttpHead.HeaderLine` | amiproc/http.cpp:378-392 | name and value of a line are found and nothing else changes |
| `HttpHead.NameAndValue` | amiproc/http.cpp:384-389 | "Name: Value" is split as it was put together |
| `HttpHead.OtherLines` | amiproc/http.cpp:384-389 | a line without the space loses the first character of its value, one that ends with ':' has the empty value, one without ':' none, and a ':' in front belongs to the name |
| `HttpHead.SupportedExactly` | amiproc/http.cpp:355-374 | exactly the versions 1.0 and 1.1 of exactly HTTP |
| `HttpHead.Request.ParseHeaders` | amiproc/http.cpp:377-393 | one pointer pair per header line, none for the blank line |
| `HttpHead.SplitUri` | amiproc/http.cpp:395-405 | the cut is made at the first '?' of the URI or of what follows it up to two NULs, and nowhere else |
| `HttpHead.RecoveredExactlyWhen` | amiproc/http.cpp:395-405 | query and first header name are recovered if and only if the URI or no first name has a '?' |
| `HttpHead.QuestionMarkLeaks` | amiproc/http.cpp:395-405 | a head whose query and first header name come out changed |
| `HttpHead.Request.ParseHead` | amiproc/http.cpp:333-405 | all pointers lead to the parts of the head, also where the first header name is cut |
| `HttpHead.Request.GetHeader` | amiproc/http.cpp:20-29 | the value of the first header with the name, or "" |
| `HttpHead.ParseRendered` | amiproc/http.cpp:333-405 | parsing a rendered head recovers method, path, query, version and every header |
| `AmiEvents.LinesOfRender` | amiproc/amiproc.cpp:67-95 | the lines of a rendered message are the ones it was rendered from |
| `AmiEvents.LineIsRead` | amiproc/amiproc.cpp:67-95 | of any text a line's key is what is in front of its first ':', and its value what follows the spaces behind it, up to the line end |
| `AmiEvents.SpacesAndColons` | amiproc/amiproc.cpp:72-92 | an example with several spaces, and with a ':' at the front of the second line, which belongs to its key |
| `AmiEvents.StepsOverExactly` | amiproc/amiproc.cpp:67-95 | for every text the scan steps over the end if and only if the text ends with the end of a line that has a key |
| `AmiEvents.StepsOverByColon` | amiproc/amiproc.cpp:67-95 | where no line begins with ':', if and only if the text ends with CR LF and its last line has a colon |
| `AmiEvents.OneLineEndOverruns` | amiproc/amiproc.cpp:84-92 | inputs: every text of one line with a colon and one line end |
| `AmiEvents.BlankEndStays` | amiproc/amiproc.cpp:67-95 | a text that ends with a blank line does not |
| `AmiEvents.Events.Parse` | amiproc/amiproc.cpp:67-95 | on every text it does not step out of, by the same condition, the in-place parser stores pointers to exactly the complete lines |
| `AmiEvents.Events.GetValue` | amiproc/amiproc.cpp:47-55 | the first matching value, or "" |
| `AmiEvents.ParseThenGet` | amiproc/amiproc.cpp:47-95 | a rendered message parsed and asked for a key: its first value, or "" |
| `QueryString.CheckEscape` | amiproc/http.h:141-162 | the in-place shifting terminates and cuts at the first selected CR or LF, then drops the selected spaces and tabs |
| `QueryString.CleanIsClean` | amiproc/http.h:141-162 | no selected character is left in the result |
| `QueryString.CleanNothing` | amiproc/http.h:141-162 | a text without selected characters is not changed |
| `QueryString.CleanCuts` | amiproc/http.h:158-160 | a selected CR or LF ends the result, whatever follows |
| `QueryString.CleanDrops` | amiproc/http.h:151-157 | a selected space or tab is dropped and what is around it stays |
| `QueryString.BobWithoutLineEnd` | amiproc/http.h:141-162 | "bob" and a line end become "bob" |
| `QueryString.Query.Parse` | amiproc/http.h:164-225 | the pairs of the query string are inserted in order |
| `QueryString.PairsOfJoined` | amiproc/http.h:181-222 | for every selection joined pairs are found again in order, without what is selected, and as they were if they have none of it |
| `QueryString.ParsingStops` | amiproc/http.h:181-222 | parsing stops at an empty key, at an empty value at the end, and where there is no '=' |
| `QueryString.InsertedIsLast` | amiproc/http.h:215-215 | the map holds the value last given for each key |
| `QueryString.ParseThenGet` | amiproc/http.h:164-235 | Parse then Get on joined pairs, for every selection: the value last given for a key, cleaned, and as it was given if nothing selected is in the pairs |
| `UrlDecode.DecodeOfEncode` | amiproc/http.cpp:118-154 | decoding inverts percent-encoding (RFC 3986, section 2.1), whatever characters are kept, with digits of either case |
| `UrlDecode.DigitValue` | amiproc/http.cpp:133-142 | the upper-case and the lower-case form of a digit have its value |
| `UrlDecode.PlainCompose` | amiproc/http.cpp:126-150 | what follows a well-formed string is decoded on its own |
| `UrlDecode.TruncatedEscape` | amiproc/http.cpp:128-131 | a '%' with less than two characters behind it ends the result |
| `UrlDecode.MalformedEscape` | amiproc/http.cpp:133-146 | out of place, a '%' in front of two characters that are not both digits stays as it is |
| `UrlDecode.RewrittenIsPlainExactly` | amiproc/http.cpp:126-150 | overwriting the input gives what an out-of-place decoder gives if and only if every '%' without two digits comes to stand where the input has a '%' |
| `UrlDecode.RewrittenIsPlain` | amiproc/http.cpp:126-150 | so it does on every well-formed string |
| `UrlDecode.MalformedAfterEscape` | amiproc/http.cpp:128-143 | an input on which it does not |
| `UrlDecode.RewriteInPlace` | amiproc/http.cpp:118-154 | the string is decoded in place, within its old bounds, and is that of the out-of-place decoder exactly under the same condition |

## Left out

- Socket creation and connection, socket options, DNS, select, syslog, AMI login: foreign calls.
- Client sockets as the main socket of the pool (`m_fmain`), forced cancellation, timing statistics and logging.
- Liveness: whether the listener is re-armed after a failed accept, and whether a partial send is ever resumed.
- `DispatchSafety.OnePlaceEach`: like the other run lemmas there, it is about disciplined runs; which steps are undisciplined is exact, but the code does not rule them out.
- Concurrency in `tst.cpp` and `amiproc.cpp` is a step system over values, so aliasing of the records and the C++ memory model are not captured.
- Output events on a WebSocket connection, for which `websocket` reads as for input events; fragmentation of WebSocket messages, which is not implemented.
- The bytes of responses and of the upgrade from HTTP to WebSocket; an upgrade ends the HTTP model of a connection, and a route only decides whether it stays open.
- `HttpRequests.JudgeHead`: does not cover a head with other characters between a supported version and its CR LF, with a CR inside a header line, or with more headers than the array of 30 the code has.
- `Http.Connection.Route`: which heads have a route is an argument of `Http.Connection`; `HttpRequests.JudgeHead` connects the one `HttpRequests` uses with the parser.
- The two calls of `urlDecodeRewite` after the split (amiproc/http.cpp:410-411) are not part of `HttpHead.Request.ParseHead`; `UrlDecode` models the function itself, and `HttpRequests.JudgeHead` takes its result for the path.
- Null pointers that a head without its two spaces, or a header without a ':', leaves behind; messages of `ami_sync` for a missing connection; the `msg` texts.
- `AmiReader.Serve`: a message of s_len bytes or more fills the buffer for good, as in the code.
- `strrtrim` and `response_http`, route and event handlers, AsyncThreadPool, echoserver: thin or not in the repository.
