# lwIP netconn protocol and companions, in Dafny

This project models the parts of the lwIP tree where several threads or callbacks have to agree
about shared state, and proves what holds in every run of them:

- `NetconnWrite.dfy`: the do/while loop that hands a vector of buffers to TCP in 16-bit pieces.
- `NetconnProtocol.dfy`: the request/callback protocol of a TCP netconn. An application thread posts
  a connect, write, close, delete or listen; the stack thread starts it, and a later `connected`,
  `sent`, `poll` or `err` callback resumes or ends it and signals the waiting thread.
- `NetconnRecv.dfy`: the receive path, with the stack thread and one receiving thread interleaving
  between their accesses to mailbox, counters and events; the tests at the start of a receive call
  are one step.
- `NetconnOwnership.dfy`: who owns the packets and the waiting connections in the two mailboxes.
- `Win32Mailbox.dfy`: the ring buffer behind a counting semaphore that implements mailboxes on win32.
- `CoreLock.dfy`: the recursive core lock of the FreeRTOS port with its counter and holder.
- `RouteTable.dfy`: the sorted static IPv6 route table against a map with longest-prefix match.
- `TcpMd5.dfy`: option parser, option writer and the two digest paths of the TCP MD5 signature option.
- `TcpEcho.dfy`: the raw-API echo server over chains of reference-counted pbufs.
- `RtpStream.dfy`: the RTP fragmenter and the loss counter of its receiver.
- `Lwip.dfy`: shared types.

Whatever lies outside the modelled file (results of `tcp_write`, `tcp_sndbuf`, `tcp_close`,
`sys_mbox_trypost`, `lwip_sendto`, allocation, the scheduler) is an arbitrary input of the model:
a function from call numbers to answers, or a field of an event. Properties are stated for all of
them. Each stateful component has a value of its state, a step function, a `Run` over arbitrary
event lists, an invariant kept by every step, and a class whose methods follow the C code and are
proved to have exactly the effect of the step functions.

The configuration is that of `contrib/examples/example_app/lwipopts.h`: core locking and
`LWIP_SO_RCVBUF` on; `LWIP_NETCONN_FULLDUPLEX`, `LWIP_SO_SNDTIMEO`, `LWIP_SO_LINGER` and
`LWIP_NETCONN_SEM_PER_THREAD` off.

## What the runs assume

- A netconn has one receiver at a time. In a "serial" run, which is asked for only where a row says
  so, no message is handled between the signal and the return of a waiting caller
  (`lwip/doc/doxygen/main_page.h:337-340`).
- No close is posted while another one is outstanding; api_msg.c only asserts this.
  `NetconnProtocol.SecondCloseIff` shows that the assumption is needed.
- `tcp_close` of a pcb that is still connecting or that listens does not fail; in `tcp.c` both cases
  free the pcb and succeed (`lwip/src/core/tcp.c:391-400`).
  `NetconnProtocol.DeleteWhileConnectingIff` shows that the netconn code depends on it.
- A blocking write has a non-empty last vector and no stalling vector.
  `NetconnWrite.ResumableIff` and `NetconnWrite.TerminatesIff` show that both are needed.
- The non-blocking flag of a netconn does not change during a run.
- Pbufs that TCP hands to the echo server have one reference each.

## Findings

Places where the code does not do what its comments or callers expect; each has a lemma with the
exact condition.

- The write loop compares a length with a 16-bit truncated difference. A blocking request with a
  vector of more than 65535 bytes before its last one can spin for ever while the send buffer is
  full (`NetconnWrite.LargeVectorStalls`, `NetconnWrite.TerminatesIff`).
- A blocking request whose last vector is empty can be left outstanding with nothing to write; the
  assertion on resuming it then fails (`NetconnWrite.ResumableIff`).
- With one semaphore per netconn, a thread can return without a result of its own if and only if a
  message is left outstanding while the token of an earlier caller is still in the semaphore
  (`NetconnProtocol.WakesFindResultsIff`, `NetconnProtocol.TwoWritersMixUp`).
- Removing a route from a full table leaves the prefix length and the gateway of the last slot behind
  (`RouteTable.RemoveHarmlessIff`): later additions can be refused too early, and lookups can return
  a gateway that belongs to no route.
- `tcp_input` converts five header fields to host order, `tcp_md5_dup_tcphdr` converts six back. On a
  little-endian machine a signed segment whose urgent pointer is not the same in both byte orders is
  rejected (`TcpMd5.StreamsAgreeIff`, `TcpMd5.UrgentPointerRejected`).
- The 8-bit core lock counter is exact up to 255 nested calls (`CoreLock.ExactIffNestingFits`).
- The RTP receiver counts one lost packet at every wrap of the sequence number
  (`RtpStream.LosslessCount`).

One weakness is latent, since the rest of the tree never triggers it:

- Deleting a netconn during a non-blocking connect leaves the connect flag set. If `tcp_close` could
  fail in SYN_SENT, which it does not, a reset would leave the deleting thread asleep for ever
  (`NetconnProtocol.DeleteWhileConnectingIff`, `NetconnProtocol.DeleteWhileConnectingSleepsForever`).

## Model

| member | source | states |
|---|---|---|
| `NetconnWrite.RunConserves` | lwip/src/api/api_msg.c:1676-1726 | for every answer of TCP and any number of passes, the bytes taken are exactly the bytes of the concatenated vectors between the old and the new offset, and vector, vector_off and vector_cnt denote that offset |
| `NetconnWrite.RunEnds` | lwip/src/api/api_msg.c:1676-1726 | how the loop can end: ERR_WOULDBLOCK only for a non-blocking request that wrote nothing, no error once all vectors are used up, and non-blocking ERR_OK only with progress |
| `NetconnWrite.RunLengths` | lwip/src/api/api_msg.c:1699-1700 | in every pass of every run the length handed to tcp_write fits in the 16 bits it is cut to, as the assertion there says |
| `NetconnWrite.PassIsGreedy` | lwip/src/api/api_msg.c:1677-1725 | a pass hands over as much as the vector has left, 16 bits allow and the send buffer has room for; an error of tcp_write ends it with that error and changes nothing |
| `NetconnWrite.RoomWritesAll` | lwip/src/api/api_msg.c:1676-1726 | as long as there is room one call writes the whole request, however many and however large its vectors are |
| `NetconnWrite.RunRefused` | lwip/src/api/api_msg.c:1676-1726 | a call that leaves something to write was refused something in one of its passes, and an error other than ERR_WOULDBLOCK is one that tcp_write gave |
| `NetconnWrite.TerminatesIff` | lwip/src/api/api_msg.c:1676-1726 | the loop ends for every behaviour of TCP if and only if the request does not block or no vector but the last has more than 65535 bytes left |
| `NetconnWrite.StallFreeExits` | lwip/src/api/api_msg.c:1676-1726 | the measure (vectors left, bytes left in the vector) decreases in every pass of a stall-free request, so the loop ends |
| `NetconnWrite.LargeVectorStalls` | lwip/src/api/api_msg.c:1682-1725 | for every request with a large non-last vector there is a behaviour of TCP under which the loop never ends |
| `NetconnWrite.CallResult` | lwip/src/api/api_msg.c:1743-1802 | a blocking write that ends with ERR_OK wrote everything; a non-blocking one always finishes at once and reports ERR_WOULDBLOCK only if nothing was written and ERR_OK only if something was |
| `NetconnWrite.ConcludeIff` | lwip/src/api/api_msg.c:1743-1782 | when exactly the result is ERR_OK or ERR_WOULDBLOCK, that ERR_RTE of tcp_output and every error but ERR_MEM reach the caller, and when exactly the request stays outstanding |
| `NetconnWrite.ResumableIff` | lwip/src/api/api_msg.c:1651-1657 | an unfinished request always satisfies the assertion made when it is resumed if and only if it does not block or its last vector is not empty |
| `NetconnWrite.Writemore` | lwip/src/api/api_msg.c:1639-1741 | the loop as code: ends, and leaves cursor, error and bytes taken as the specified run does |
| `NetconnWrite.SendPiece` | lwip/src/api/api_msg.c:1677-1725 | one pass as code has the effect of the specified pass |
| `NetconnWrite.CheckVectors` | lwip/src/api/api_lib.c:1008-1056 | with a size_t that wraps, exactly the vectors whose true total does not fit are refused; otherwise the size sent is the true total, limited to SSIZE_MAX when the caller can see a partial write |
| `NetconnProtocol.ProtocolSafe` | lwip/src/api/api_msg.c:356-505 | in every run of messages and callbacks the state, current_msg, pcb and connect flag fit together, every finished write reports what TCP took, no caller is signalled twice, and the assertions on these fields hold: those at the entry of every handler, of the write loop and of a close, in each pass of the loop, at the failure of a close, and before every wait |
| `NetconnProtocol.StepKeeps` | lwip/src/api/api_msg.c:919-1206 | each single message or callback keeps the whole invariant |
| `NetconnProtocol.AssertsFollow` | lwip/src/api/api_msg.c:930-1101 | the assertions an event executes follow from the invariant: 440-505 and 1315-1330 in callbacks, 932-934, 1089 and 1101 in a close, 1651-1657 and 1699 in a write, and "state!" at 1178, 1392, 1832 and 1986 before a wait |
| `NetconnProtocol.ReturnTells` | lwip/src/api/api_msg.c:1784-1802 | the code returned by the write and close functions differs from ERR_OK if and only if the message is still outstanding |
| `NetconnProtocol.WaitsIffOutstanding` | lwip/src/api/api_msg.c:1813-1858 | a caller, who waits exactly when the internal function did not return ERR_OK (1177, 1831, 1985), waits if and only if its message was left outstanding and if and only if it has no result yet; nothing was signalled |
| `NetconnProtocol.WritesConserved` | lwip/src/api/api_msg.c:1639-1858 | over every interleaving with sent, poll and error callbacks, an outstanding write has handed over exactly its first offset bytes; a finished one reports the length of the prefix that TCP took, all of it for a blocking ERR_OK, something for any ERR_OK, nothing for ERR_WOULDBLOCK (the count and assertion of api_lib.c:1064-1074) |
| `NetconnProtocol.ResultsExplained` | lwip/src/api/api_msg.c:346-2004 | in every run every result of a connect, write, close, delete or listen has a cause in the run that accounts for its error: a connect or write ended by err_tcp has the error it was called with, a close ERR_OK, an established connect what the callback reported, a write what tcp_write or tcp_output gave, a close what tcp_close gave or ERR_MEM when no poll is left, and each refusal the state that asks for it |
| `NetconnProtocol.ConnectOkMeansConnected` | lwip/src/api/api_msg.c:1300-1342 | a connect reports ERR_OK only if the run has a connected callback with ERR_OK while that connect was outstanding |
| `NetconnProtocol.MessageWaits` | lwip/src/api/api_msg.c:1350-2004 | a message waits only if it is a connect that TCP started on a blocking netconn, a write that may block and was refused something, or a close or delete answered with ERR_MEM; connect, close and delete do so exactly then |
| `NetconnProtocol.WriteWaitsIff` | lwip/src/api/api_msg.c:1743-1858 | a write waits if and only if it is not refused, may block, tcp_output found a route, and the loop stopped before the end with ERR_OK or ERR_MEM |
| `NetconnProtocol.NonblockingNeverWaits` | lwip/src/api/api_msg.c:1350-1858 | on a non-blocking netconn nothing but a close is ever outstanding |
| `NetconnProtocol.WriteGoesOn` | lwip/src/api/api_msg.c:356-421 | a sent or poll callback resumes an outstanding write: it has its result, or TCP refused something in that very call |
| `NetconnProtocol.WriteTakesMore` | lwip/src/api/api_msg.c:356-421 | each of these callbacks hands over at least what the first send buffer it sees has room for |
| `NetconnProtocol.RoomEndsWrite` | lwip/src/api/api_msg.c:356-421 | with room and a route an outstanding write ends at the next callback with ERR_OK and everything written |
| `NetconnProtocol.PendingReported` | lwip/src/api/api_msg.c:1813-1820 | the error that ended a connection is what the next write reports, whatever else happens before, and once |
| `NetconnProtocol.CallbacksEnd` | lwip/src/api/api_msg.c:431-505 | err_tcp and the connected callback leave an idle netconn, end the outstanding call and reset the connect flag; err_tcp leaves no pcb and its error pending |
| `NetconnProtocol.ConnectArms` | lwip/src/api/api_msg.c:1376-1380 | a connect that reaches TCP registers all callbacks |
| `NetconnProtocol.ListenMeans` | lwip/src/api/api_msg.c:1448-1522 | listening reports ERR_OK exactly when the netconn listens afterwards, loses its pcb exactly without an accept mailbox, and otherwise changes nothing |
| `NetconnProtocol.SerialRunsWake` | lwip/src/api/api_msg.c:1831-1851 | in serial runs the assertions after every wait hold (1182, 1396, 1836, 1990) and every woken thread finds its own result |
| `NetconnProtocol.WakesFindResultsIff` | lwip/src/api/api_msg.c:1841-1851 | in every run each thread that can take the semaphore, at any point, finds its own result if and only if no message was left outstanding while a token was in the semaphore; then at most one thread sleeps and at most one token is there |
| `NetconnProtocol.OverlapMixesUp` | lwip/src/api/api_msg.c:1831-1851 | after any overlap, in any reachable state, the later caller can take the token of the earlier one and return without a result |
| `NetconnProtocol.TwoWritersMixUp` | lwip/src/api/api_msg.c:1841-1851 | a run of two writers after which the second can return although its write has no result, and the first, whose write is finished, then sleeps without a token |
| `NetconnProtocol.CallbacksStay` | lwip/src/api/api_msg.c:961-1009 | unless a full close fails for good, the callbacks that can end an outstanding call stay registered |
| `NetconnProtocol.CloseIsBounded` | lwip/src/api/api_msg.c:356-388 | an outstanding close has its result after at most polls_left polls, whatever TCP answers and whatever other events interleave |
| `NetconnProtocol.CloseRetries` | lwip/src/api/api_msg.c:356-388 | while TCP is out of memory a close is not given up before its polls are used up, and each poll counts one |
| `NetconnProtocol.CloseTried` | lwip/src/api/api_msg.c:936-1103 | an attempt ends unless it got ERR_MEM with polls left; the pcb goes exactly when neither direction stays open, half a shutdown keeps it with its callbacks, a failed one is detached, and one to be tried again is registered again |
| `NetconnProtocol.DeleteWhileConnectingIff` | lwip/src/api/api_msg.c:1136-1182 | deleting during a non-blocking connect keeps the invariant if and only if tcp_close succeeds, which tcp.c guarantees in SYN_SENT |
| `NetconnProtocol.DeleteWhileConnectingSleepsForever` | lwip/src/api/api_msg.c:1136-1182 | were tcp_close to answer ERR_MEM there, a reset would leave the deleting thread asleep without a token, after every later run |
| `NetconnProtocol.SecondCloseIff` | lwip/src/api/api_msg.c:1968-1993 | a close keeps the record of who waits for what if and only if no other close is outstanding |
| `NetconnProtocol.Netconn.CloseInternal` | lwip/src/api/api_msg.c:919-1103 | the code has exactly the effect and the return code of the step function: callbacks cleared, retried on ERR_MEM until the polls run out, callbacks restored, result set before the signal |
| `NetconnProtocol.Netconn.TryClose` | lwip/src/api/api_msg.c:936-1055 | which callbacks are cleared, when the attempt is final and with which error |
| `NetconnProtocol.Netconn.WriteMore` | lwip/src/api/api_msg.c:1639-1802 | running the loop and concluding the call has exactly the effect and the return code of the step function |
| `NetconnProtocol.Netconn.Connect` | lwip/src/api/api_msg.c:1350-1415 | blocking, non-blocking and refused connects |
| `NetconnProtocol.Netconn.Write` | lwip/src/api/api_msg.c:1813-1858 | a write is refused, finished at once, or left outstanding with its caller asleep because ERR_MEM was returned |
| `NetconnProtocol.Netconn.Close` | lwip/src/api/api_msg.c:1933-2004 | the states in which a close is refused, and the start of the others |
| `NetconnProtocol.Netconn.Delete` | lwip/src/api/api_msg.c:1112-1206 | a delete is refused with ERR_INPROGRESS or becomes a full close |
| `NetconnProtocol.Netconn.Listen` | lwip/src/api/api_msg.c:1448-1522 | the four outcomes of listening and the error for each wrong state |
| `NetconnProtocol.Netconn.OnConnected` | lwip/src/api/api_msg.c:1300-1342 | ends the outstanding connect, and signals only a blocking one |
| `NetconnProtocol.Netconn.OnErr` | lwip/src/api/api_msg.c:431-505 | drops the pcb, resets the state first and ends the outstanding operation: a close with ERR_OK, a connect or write with the error (ResultsExplained) |
| `NetconnProtocol.Netconn.OnSent` | lwip/src/api/api_msg.c:397-421 | resumes the outstanding write or close |
| `NetconnProtocol.Netconn.OnPoll` | lwip/src/api/api_msg.c:356-388 | counts the poll down and resumes the outstanding write or close |
| `NetconnRecv.ReceiveAccounting` | lwip/src/api/api_msg.c:158-343 | in every interleaving recv_avail is the bytes queued plus those fetched but not yet subtracted minus those posted but not yet added, a UDP or RAW netconn never queues more than SO_RCVBUF, and until an error every byte fetched from a TCP netconn is credited to the window once or left to the caller |
| `NetconnRecv.ReceiveOrder` | lwip/src/api/api_lib.c:578-673 | what the application got, holds and has queued is what was posted, in order; until an error RCVPLUS and RCVMINUS balance, and a posted FIN is in exactly one place: queued, held by the receiver, deferred, or reported as ERR_CLSD, at most once and after all data, by then credited exactly once unless the caller took that over |
| `NetconnRecv.CreditFollowsFlag` | lwip/src/api/api_lib.c:734-741 | who credits is what NETCONN_NOAUTORCVD says: if no call of a run sets it nothing is left to the callers, and if all do the stack credits nothing |
| `NetconnRecv.WaitsOnlyIfAllowed` | lwip/src/api/api_lib.c:598-620 | in every run a call on a non-blocking netconn or with NETCONN_DONTBLOCK never reaches the blocking fetch, and a call without either reaches the path for an empty mailbox only after an error |
| `NetconnRecv.ReturnReasons` | lwip/src/api/api_lib.c:578-769 | in every run a call returns data it holds, ERR_TIMEOUT only where it may wait, ERR_WOULDBLOCK only where it may not and there is no error, or for a FIN it cannot handle, ERR_CONN only without a mailbox or after an error, ERR_CLSD for a FIN, and otherwise the error that was raised |
| `NetconnRecv.RaisedError` | lwip/src/api/api_msg.c:431-474 | the error that calls return is the one err_tcp was called with |
| `NetconnRecv.NeverStuckAfterError` | lwip/src/api/api_msg.c:431-474 | once err_tcp is done a receiver that is inside a call, wherever it was, can always take its next step and is nearer to the end of its call |
| `NetconnRecv.ReceiveAfterError` | lwip/src/api/api_lib.c:588-632 | a receive that starts after the error does not block, takes queued messages first and never reports ERR_WOULDBLOCK, except for a FIN met with NETCONN_NOFIN |
| `NetconnRecv.StepKeeps` | lwip/src/api/api_lib.c:578-673 | every step of either thread keeps accounting, order, event balance, the single place of the FIN and the wake-up condition |
| `NetconnRecv.HandledFinLeavesEmptyBox` | lwip/src/api/api_lib.c:745-762 | when a FIN is handled nothing is behind it, so draining the mailbox loses nothing |
| `NetconnRecv.RecvCallKeeps` | lwip/src/api/api_lib.c:702-769 | a whole receive call is a run of the machine and keeps its invariant |
| `NetconnRecv.RecvCallAnswers` | lwip/src/api/api_lib.c:578-769 | what an undisturbed call returns, told from the state it starts in: the oldest message, the pending error, ERR_CONN, ERR_WOULDBLOCK or the timeout; and what it leaves of mailbox, pending error and deferred FIN |
| `NetconnRecv.DoRecv` | lwip/src/api/api_msg.c:1588-1605 | the pieces credited with tcp_recved fit in 16 bits and add up to the length |
| `NetconnRecv.Receiving.OnReceive` | lwip/src/api/api_msg.c:158-343 | the callback posts the message exactly if the mailbox is valid, has room and, for UDP and RAW, SO_RCVBUF allows it; otherwise the mailbox stays as it was |
| `NetconnRecv.Receiving.OnError` | lwip/src/api/api_msg.c:431-474 | the error is pending, the mailbox marked closed, one event sent, and the marker queued exactly if there is a mailbox with room |
| `NetconnRecv.Receiving.Receive` | lwip/src/api/api_lib.c:578-769 | the code of a receive has the effect of its steps, returns the answer of RecvCallAnswers and leaves mailbox, error and FIN as stated there; a blocking call on an empty mailbox ends with its timeout |
| `NetconnRecv.Receiving.HandleFin` | lwip/src/api/api_lib.c:745-766 | reports ERR_CLSD, or the pending error when the pcb is gone |
| `NetconnOwnership.Drain` | lwip/src/api/api_msg.c:826-888 | releases exactly what the mailboxes hold at every level, each thing once and no marker, aborts every remaining pcb, and leaves both mailboxes invalid; netconn_free's assertions hold for every freed netconn |
| `NetconnOwnership.DropWaiting` | lwip/src/api/api_msg.c:872-883 | a waiting netconn is drained before its pcb is aborted, so the error callback finds no mailbox and the netconn can be freed |
| `NetconnOwnership.OwnedExactlyOnce` | lwip/src/api/api_msg.c:158-343 | in every run everything that was in the mailboxes or came in later is with the application, released or in a mailbox, exactly as often as it was created |
| `NetconnOwnership.MailboxesAreQueues` | lwip/src/api/api_msg.c:158-599 | in every run both mailboxes behave as plain queues: what finds room is queued at the end, packets, error markers and netconns alike, what is taken comes from the front, and nothing else gets in or out |
| `NetconnOwnership.OwnershipMoves` | lwip/src/api/api_msg.c:158-599 | what each event makes the stack own and what it gives to the application; with conservation and the queues this fixes what is released |
| `NetconnOwnership.SetThenGet` | lwip/src/api/api_msg.c:292-343 | what reaches one waiting netconn changes that one only |
| `NetconnOwnership.ToWaitingBalance` | lwip/src/api/api_msg.c:532-599 | data and errors that reach a connection still waiting to be accepted keep the balance of the listener |
| `NetconnOwnership.ListenLosesIff` | lwip/src/api/api_msg.c:1484-1489 | listening frees recvmbox without draining it: nothing is lost if and only if no packet is in it |
| `NetconnOwnership.StepUnused` | lwip/src/api/api_msg.c:1448-1522 | a pcb that was never connected has an empty recvmbox, so in every run listening loses nothing |
| `NetconnOwnership.Endpoint.OnRecvTcp` | lwip/src/api/api_msg.c:292-343 | data is queued, released when the mailbox is gone, or left with TCP when it is full |
| `NetconnOwnership.Endpoint.OnRecvUdp` | lwip/src/api/api_msg.c:217-282 | a datagram is queued or released on every error path |
| `NetconnOwnership.Endpoint.OnRecvRaw` | lwip/src/api/api_msg.c:158-207 | only the copy is owned, and it is queued or released |
| `NetconnOwnership.Endpoint.OnAccept` | lwip/src/api/api_msg.c:532-599 | a new netconn is queued or freed again; ERR_OK exactly when it is queued, ERR_VAL exactly without a mailbox or a pcb, and ERR_MEM otherwise |
| `NetconnOwnership.Endpoint.DrainMailboxes` | lwip/src/api/api_msg.c:826-888 | both mailboxes end invalid and all they held is released |
| `NetconnOwnership.Endpoint.TakeWaiting` | lwip/src/api/api_lib.c:470-560 | hands over the oldest waiting netconn with what is queued in it, or reports the pending error, the marker, ERR_CLSD, ERR_WOULDBLOCK or the timeout, and which of them |
| `Win32Mailbox.BoundedFifo` | contrib/ports/win32/sys_arch.c:515-693 | every run of any number of threads is a run of an atomic bounded queue: popped then queued messages are the posted ones, occupancy is tokens plus claims and at most the size minus one, no claim meets an empty ring, the semaphore stays below its maximum |
| `Win32Mailbox.StepKeeps` | contrib/ports/win32/sys_arch.c:554-693 | each post, try-post, wait and pop keeps this and matches one step of the atomic queue |
| `Win32Mailbox.FullIff` | contrib/ports/win32/sys_arch.c:554-613 | the index comparison of try-post and the "mbox is full!" assertion hold exactly for a ring that has one free slot left |
| `Win32Mailbox.PutIntoFullLosesAll` | contrib/ports/win32/sys_arch.c:554-578 | a plain post appends its message if and only if the ring is not full; into a full ring it loses everything queued |
| `Win32Mailbox.Mailbox.Post` | contrib/ports/win32/sys_arch.c:554-578 | the critical section of a post, with both of its assertions |
| `Win32Mailbox.Mailbox.TryPost` | contrib/ports/win32/sys_arch.c:580-613 | appends the message or, exactly when the ring is full, changes nothing and fails |
| `Win32Mailbox.Mailbox.WaitForSem` | contrib/ports/win32/sys_arch.c:672 | a poll finds no token exactly when every queued message is claimed by another thread |
| `Win32Mailbox.Mailbox.TakeClaimed` | contrib/ports/win32/sys_arch.c:674-683 | a thread with a token gets the oldest message not yet popped |
| `CoreLock.CheckIsExact` | contrib/ports/freertos/sys_arch.c:546-607 | for every interleaving with nesting up to 255 the counter is the owner's settled depth, and the check, reading its two variables at different times, passes exactly for the owner |
| `CoreLock.ExactIffNestingFits` | contrib/ports/freertos/sys_arch.c:546-568 | the check is right in all runs if and only if nesting stays at or below 255 |
| `CoreLock.StepKeeps` | contrib/ports/freertos/sys_arch.c:550-568 | every single step of lock, unlock and check keeps holder, counter and mutex in agreement |
| `CoreLock.Core.LockCore` | contrib/ports/freertos/sys_arch.c:550-558 | an undisturbed lock call makes the caller owner and holder and counts up |
| `CoreLock.Core.UnlockCore` | contrib/ports/freertos/sys_arch.c:560-568 | an undisturbed unlock call counts down and clears holder and owner together at zero |
| `CoreLock.Core.CheckCore` | contrib/ports/freertos/sys_arch.c:583-607 | the assertion passes for a thread if and only if it owns the lock |
| `RouteTable.TableRefinesMap` | contrib/addons/ipv6_static_routing/ip6_route_table.c:75-234 | for a table of any size, every run of additions, lookups and guarded removals answers exactly as a map from bit strings to hops with longest-prefix match does, ERR_MEM included |
| `RouteTable.SortedAlways` | contrib/addons/ipv6_static_routing/ip6_route_table.c:75-164 | in every run, guarded or not, all slots stay sorted by non-increasing prefix length |
| `RouteTable.AddRefines` | contrib/addons/ipv6_static_routing/ip6_route_table.c:75-123 | an addition is an update of the map at the first len bits of the address; ERR_MEM occurs exactly when all slots are live and the prefix is new, ERR_ARG exactly for a bad prefix or no interface |
| `RouteTable.RemoveRefines` | contrib/addons/ipv6_static_routing/ip6_route_table.c:130-164 | a guarded removal removes the network from the map and leaves the live routes as a contiguous front without duplicates |
| `RouteTable.LookupRefines` | contrib/addons/ipv6_static_routing/ip6_route_table.c:175-234 | the first match in the table is the route of the longest network of the map that the destination is in, or none |
| `RouteTable.LookupIsLongest` | contrib/addons/ipv6_static_routing/ip6_route_table.c:175-234 | without the map: if live routes agree with the destination in all bits of their prefix, the lookups return interface and gateway of one of them that is at least as long as all others, and otherwise nothing |
| `RouteTable.SameCovers` | contrib/addons/ipv6_static_routing/ip6_route_table.c:86-93 | two prefixes count as the same route if and only if they have the same length and each covers the address of the other, bit by bit |
| `RouteTable.AddCodes` | contrib/addons/ipv6_static_routing/ip6_route_table.c:75-123 | without the map: ERR_ARG exactly for a length above 128, one that is no whole number of bytes, or no interface; otherwise ERR_MEM exactly if all slots are live and none has the same length and the same bits |
| `RouteTable.RemoveHarmlessIff` | contrib/addons/ipv6_static_routing/ip6_route_table.c:144-157 | a removal stays invisible to all later guarded operations if and only if the table was not full, the prefix was absent, or the last route had no gateway and was the default route or the only slot |
| `RouteTable.HoleDiverges` | contrib/addons/ipv6_static_routing/ip6_route_table.c:144-157 | after any other removal from a full table whose last prefix is not empty, three further operations end in an addition that is refused too early |
| `RouteTable.GatewayDiverges` | contrib/addons/ipv6_static_routing/ip6_route_table.c:144-157 | if the last route is the default route with a gateway, that gateway is later returned for an address without a route |
| `RouteTable.OneSlotDiverges` | contrib/addons/ipv6_static_routing/ip6_route_table.c:144-157 | in a table with one slot, the gateway of the removed route is still returned |
| `RouteTable.StaticRoutes.AddEntry` | contrib/addons/ipv6_static_routing/ip6_route_table.c:75-123 | the in-place code leaves the array as the specification says, and the index it returns is that of the new entry |
| `RouteTable.StaticRoutes.InsertEntry` | contrib/addons/ipv6_static_routing/ip6_route_table.c:100-112 | shifting down in place is an insertion at the first slot with a shorter prefix |
| `RouteTable.StaticRoutes.RemoveEntry` | contrib/addons/ipv6_static_routing/ip6_route_table.c:130-164 | shifting up and zeroing in place is the specified removal |
| `RouteTable.StaticRoutes.FindEntry` | contrib/addons/ipv6_static_routing/ip6_route_table.c:175-190 | the index of the first match, or -1 |
| `RouteTable.StaticRoutes.StaticRoute` | contrib/addons/ipv6_static_routing/ip6_route_table.c:194-209 | the interface of the first match, or none |
| `RouteTable.StaticRoutes.GetGateway` | contrib/addons/ipv6_static_routing/ip6_route_table.c:219-234 | the gateway of the first match, or none |
| `TcpMd5.ParseIff` | contrib/addons/tcp_md5/tcp_md5.c:179-225 | the parser returns a digest if and only if a complete kind-19 option with that digest is reached by stepping over NOPs and whole other options |
| `TcpMd5.ParseOpt` | contrib/addons/tcp_md5/tcp_md5.c:179-225 | the loop finds what the specification finds, and the one byte it may read after the options never matters |
| `TcpMd5.WrittenIsParsed` | contrib/addons/tcp_md5/tcp_md5.c:227-252 | whatever whole options precede the written block and however the options are split, the parser returns exactly the digest that was written |
| `TcpMd5.Input.SingleBuf` | contrib/addons/tcp_md5/tcp_md5.c:227-252 | the pieces come out joined, in place or through the 40-byte buffer, and too long split options give nothing |
| `TcpMd5.HeaderRestored` | contrib/addons/tcp_md5/tcp_md5.c:298-314 | undoing the six-field conversion gives the signed header in either byte order, whatever the checksum; for the five fields of tcp_input it does so if and only if the urgent pointer reads the same both ways or the machine is big-endian |
| `TcpMd5.CreateDigest` | contrib/addons/tcp_md5/tcp_md5.c:255-296 | streaming over a chain of any split hashes exactly the stream whose layout StreamLayout gives |
| `TcpMd5.StreamLayout` | contrib/addons/tcp_md5/tcp_md5.c:255-296 | the stream by position: source and destination address, 0, 6, length of header and data in network order, 20 header bytes, data, and the key at the end |
| `TcpMd5.SignedLayout` | contrib/addons/tcp_md5/tcp_md5.c:298-314 | what a sender hashes has the header bytes of the wire with a checksum of zero, and its own key at the end |
| `TcpMd5.StreamInjective` | contrib/addons/tcp_md5/tcp_md5.c:255-296 | for given lengths of addresses and key two streams are equal if and only if addresses, header, data and key are |
| `TcpMd5.SignedPasses` | contrib/addons/tcp_md5/tcp_md5.c:385-470 | with the same key at mirrored ends and six fields in host order, every signed segment passes the check, for every payload, hash, option list and split |
| `TcpMd5.StreamsAgreeIff` | lwip/src/core/tcp_in.c:227-232 | with the header tcp_input really leaves, the checked stream is the signed one if and only if both ends use the same key, the byte order does not change the urgent pointer and, on a listening connection, there is no data |
| `TcpMd5.ReceivedPassesIff` | contrib/addons/tcp_md5/tcp_md5.c:348-420 | a received signed segment passes if and only if the hash maps the signed and the checked stream to the same digest; the streams are equal exactly under the condition of StreamsAgreeIff, so otherwise, above all when it was signed with another key, it passes only if the hash collides on these two |
| `TcpMd5.VerdictIff` | contrib/addons/tcp_md5/tcp_md5.c:348-420 | any segment is accepted if and only if the connection has no keys, or it has one for the peer and the options, in one piece or of at most 40 bytes, carry behind whole options the digest of the stream rebuilt with that key; otherwise ERR_VAL |
| `TcpMd5.UrgentPointerRejected` | contrib/addons/tcp_md5/tcp_md5.c:306-312 | a signed segment with urgent pointer 1 that a little-endian receiver with the same key rejects |
| `TcpMd5.LatestKeyWins` | contrib/addons/tcp_md5/tcp_md5.c:124-140 | looking a peer up in the list gives its most recently set key, as a map would |
| `TcpMd5.GetInfo` | contrib/addons/tcp_md5/tcp_md5.c:124-140 | the list walk finds the first entry of the peer |
| `TcpMd5.AddTxOptions` | contrib/addons/tcp_md5/tcp_md5.c:422-470 | writes the 20-byte block with the segment's digest, or a zero digest without a key, and nothing else |
| `TcpMd5.Input.CheckInpacket` | contrib/addons/tcp_md5/tcp_md5.c:348-420 | the code of both checks gives the specified verdict |
| `TcpEcho.EchoConserves` | contrib/apps/tcpecho_raw/tcpecho_raw.c:83-247 | for every callback sequence and every answer of TCP, bytes written followed by bytes pending are the bytes the peer sent before its FIN without an error, the credit is the bytes written plus those that came after the FIN, and a graceful close leaves nothing unwritten |
| `TcpEcho.EchoReleases` | contrib/apps/tcpecho_raw/tcpecho_raw.c:83-247 | the deallocated pbufs are exactly the written ones, those that came after the FIN, those that came with an error and, after an error of the connection, those still pending, each once |
| `TcpEcho.EchoProgress` | contrib/apps/tcpecho_raw/tcpecho_raw.c:83-247 | a sent, poll or FIN that finds something pending, and data that finds nothing pending, make the server write until TCP refuses a pbuf for lack of room or with an error; a sent or poll after the FIN, or the FIN itself, that finds nothing pending closes the connection; other data is queued behind |
| `TcpEcho.EchoesAll` | contrib/apps/tcpecho_raw/tcpecho_raw.c:83-131 | with room for everything and no errors nothing stays pending after a sent, poll or FIN |
| `TcpEcho.ChopFirst` | contrib/apps/tcpecho_raw/tcpecho_raw.c:104-118 | taking a reference to the rest before freeing the first pbuf deallocates just that one |
| `TcpEcho.StepKeeps` | contrib/apps/tcpecho_raw/tcpecho_raw.c:133-247 | every callback keeps order, accounting and release |
| `TcpEcho.PbufFree` | contrib/apps/tcpecho_raw/tcpecho_raw.c:72-83 | dropping a reference deallocates the leading pbufs whose last reference it was |
| `TcpEcho.Connection.SendPending` | contrib/apps/tcpecho_raw/tcpecho_raw.c:101-131 | the send loop consumes the chain as specified and stops at the first refusal |
| `TcpEcho.Connection.OnReceive` | contrib/apps/tcpecho_raw/tcpecho_raw.c:195-247 | data is sent, appended, trashed or dropped according to state and error |
| `TcpEcho.Connection.OnClosedByPeer` | contrib/apps/tcpecho_raw/tcpecho_raw.c:203-213 | a FIN closes at once only when nothing is pending |
| `TcpEcho.Connection.OnSentOrPoll` | contrib/apps/tcpecho_raw/tcpecho_raw.c:145-193 | sends what is pending, or closes if the FIN was seen |
| `TcpEcho.Connection.OnError` | contrib/apps/tcpecho_raw/tcpecho_raw.c:133-143 | everything still pending is released |
| `RtpStream.StreamImage` | contrib/apps/rtp/rtp.c:122-161 | of any number of images the k-th is there as a whole: its payloads concatenate to the data, only its last packet has the marker, all have timestamp 3600 k modulo 2^32 |
| `RtpStream.StreamNumbers` | contrib/apps/rtp/rtp.c:153-156 | sequence numbers are consecutive modulo 2^16 across images |
| `RtpStream.ImageFields` | contrib/apps/rtp/rtp.c:137-161 | timestamp, number and marker of every packet of an image; all but the last carry 1024 bytes |
| `RtpStream.DecodeDatagram` | contrib/apps/rtp/rtp.c:100-112 | reading a datagram back gives the fields that were written; version 2, payload type 96, source 0 and the numbers are where and in the byte order that section 5.1 of RFC 3550 says |
| `RtpStream.Sender.SendPackets` | contrib/apps/rtp/rtp.c:122-161 | whatever sends fail, as long as not for ever, the loop ends and exactly the packets of one image went out, numbered on from the last one |
| `RtpStream.Sender.SendImages` | contrib/apps/rtp/rtp.c:199-203 | after k images the datagrams sent are those of the stream |
| `RtpStream.LosslessCount` | contrib/apps/rtp/rtp.c:263-279 | a complete stream of n packets is reported with (n - 1) / 65536 losses, so without loss if and only if n is at most 65536 |
| `RtpStream.LosslessStream` | contrib/apps/rtp/rtp.c:122-279 | a receiver that gets every packet of k images from the sender reports one loss per 65536 packets after the first |
| `RtpStream.CountLost` | contrib/apps/rtp/rtp.c:263-279 | the receiver's loop counts what the specification counts |
| `RtpStream.LostAreGaps` | contrib/apps/rtp/rtp.c:263-279 | whatever arrives, the count is the number of packets whose number does not follow that of the packet before, unless that was number 0 |

## Left out

- NetconnWrite.CheckVectors: a size_t of 64 bits is assumed; a request longer than SSIZE_MAX is cut by the source to its first SSIZE_MAX bytes, and the other write results are stated for requests that are not cut.
- NetconnProtocol: the select-related write-space flag and events, full-duplex, send timeout and linger branches, UDP and RAW connect and disconnect, bind, getaddr, multicast and DNS messages.
- NetconnRecv: time is not modelled; a timeout is an event that may happen at any time while a receiver waits. A change of SO_RCVBUF during a run is not modelled.
- NetconnOwnership.OwnedExactlyOnce: one netconn with everything waiting in it is a value, so aliasing between netconns is not captured; after netconn_accept the accepted netconn is followed by another run that starts with what it holds.
- NetconnOwnership.DropWaiting: an acceptmbox is a recursive list rather than a sequence, because netconns wait in it that have mailboxes of their own.
- Win32Mailbox: the unprotected creation and deletion of the semaphore and the timeout arithmetic of a fetch.
- CoreLock.CheckCore: the branch that skips the check before the stack thread is marked, and the interrupt-context probe.
- RouteTable: the debug accessor of the table. RouteTable.RemoveHarmlessIff is for one to 255 slots; the s8_t indices of the source allow at most 127.
- TcpMd5.StreamsAgreeIff: on a listening connection with keys of different lengths the data has less than 65536 bytes, as every segment does whose length has 16 bits.
- TcpMd5: the MD5 function itself is an arbitrary function of the byte stream; freeing of key lists, passive open, option length reservation and the argument checks of the socket option are not modelled; nothing is claimed about memory beyond the one byte that malformed options can make the parser read.
- TcpEcho: tcp_close failing after the callbacks were cleared, the accept callback's allocation failure, and callbacks without state, which cannot happen while they are registered.
- RtpStream: sockets, delays and the statistics output.
- Everything else in the repository: internals of tcp.c, pbuf.c and the operating system ports, the loopback filter of pcapif.c, TCP initial sequence numbers, the shell, ping, HTTP and other examples, and the Fast DDS code; they would add easy members or are not visible.
