/** The request/callback protocol of a TCP netconn (api_msg.c) under core locking.

    Application threads post messages (connect, write, close, delete, listen) that run to
    completion under the core lock; a message that cannot finish stays in `current_msg`
    and its thread sleeps on the netconn's semaphore. TCP callbacks, which also run under
    the core lock, resume or finish it. Each such critical section is one event. */
module NetconnProtocol {
  import opened Lwip
  import opened NetconnWrite

  datatype State = StNone | StWrite | StListen | StConnect | StClose

  datatype Op =
    | Connecting
    | Writing(w: Cursor, dontblock: bool)
    | Closing(rx: bool, tx: bool, pollsLeft: nat)

  /** An API message; `id` names the call that posted it. */
  datatype Msg = Msg(id: nat, op: Op)

  /** What the protocol uses of a TCP control block: its phase and which callbacks are
      registered on it. */
  datatype Pcb = Pcb(connecting: bool, listening: bool, arg: bool, sent: bool, poll: bool, errf: bool)

  datatype Request = Request(vectors: seq<seq<byte>>, dontblock: bool)

  /** What a call asks for; a delete is a close of both directions. */
  datatype Kind = ToConnect | ToWrite | ToClose | ToListen

  /** How a call ended: `msg->err` and, for a write that was started, the request, the bytes
      that `tcp_write` accepted, and `msg.w.offset`, which the caller reads as the number of
      bytes written. */
  datatype Outcome = Outcome(kind: Kind, err: Err, request: Option<Request>, took: seq<byte>, written: nat)

  /** The history of the calls: who got a result, who went to sleep, who was signalled in
      which order, who sleeps now, and the semaphore's count. */
  datatype Ledger = Ledger(
    outcome: map<nat, Outcome>, waited: set<nat>, signals: seq<nat>, asleep: set<nat>, tokens: nat)

  datatype Conn = Conn(
    state: State, current: Option<Msg>, pcb: Option<Pcb>, nonblocking: bool, inNbConnect: bool,
    pendingErr: Err, took: seq<byte>, ledger: Ledger)

  /** `setup_tcp`: all callbacks registered. */
  function SetUp(p: Pcb): Pcb {
    p.(arg := true, sent := true, poll := true, errf := true)
  }

  function NewConn(nonblocking: bool): Conn {
    Conn(StNone, None, Some(Pcb(false, false, true, true, true, true)), nonblocking, false,
         Ok, [], Ledger(map[], {}, [], {}, 0))
  }

  // ------------------------------------------------------------------ completion

  function Failed(kind: Kind, err: Err): Outcome { Outcome(kind, err, None, [], 0) }

  function OutcomeOf(op: Op, err: Err, took: seq<byte>): Outcome {
    match op
    case Connecting => Failed(ToConnect, err)
    case Writing(w, dontblock) => Outcome(ToWrite, err, Some(Request(w.vectors, dontblock)), took, w.offset)
    case Closing(_, _, _) => Failed(ToClose, err)
  }

  function Record(l: Ledger, id: nat, o: Outcome): Ledger {
    l.(outcome := l.outcome[id := o])
  }

  function Signal(l: Ledger, id: nat): Ledger {
    l.(signals := l.signals + [id], tokens := l.tokens + 1)
  }

  function Sleep(l: Ledger, id: nat): Ledger {
    l.(waited := l.waited + {id}, asleep := l.asleep + {id})
  }

  /** The message was never started: its thread just gets the error. */
  function Refuse(c: Conn, id: nat, kind: Kind, err: Err): Conn {
    c.(ledger := Record(c.ledger, id, Failed(kind, err)))
  }

  /** `msg->err` is set, `current_msg` and the state are reset and, if the thread sleeps,
      its semaphore is signalled. */
  function Complete(c: Conn, err: Err, delayed: bool): Conn {
    if c.current.None? then c else
    var m := c.current.value;
    var l := Record(c.ledger, m.id, OutcomeOf(m.op, err, c.took));
    c.(current := None, state := StNone, ledger := if delayed then Signal(l, m.id) else l)
  }

  /** The netconn after `lwip_netconn_do_writemore` or `lwip_netconn_do_close_internal`, and
      what the function returned. */
  datatype Ret = Ret(c: Conn, err: Err)

  /** The calling thread waits if the function did not return ERR_OK. */
  function WaitOn(ret: Ret, id: nat): Conn {
    if ret.err != Ok then ret.c.(ledger := Sleep(ret.c.ledger, id)) else ret.c
  }

  // ------------------------------------------------------------------ the handlers

  /** What TCP answers to one call of `lwip_netconn_do_writemore`: the replies of the loop,
      the number of passes, and `tcp_output`'s result. */
  datatype WriteCall = WriteCall(replies: nat -> Reply, n: nat, output: Err)

  function WriteLoop(c: Conn, call: WriteCall): Loop
    requires c.current.Some? && c.current.value.op.Writing?
  {
    NetconnWrite.Run(c.current.value.op.w, c.current.value.op.dontblock, call.replies, 0, call.n)
  }

  function DoWritemore(c: Conn, delayed: bool, call: WriteCall): Ret {
    if c.current.None? || !c.current.value.op.Writing? then Ret(c, Ok) else
    AfterLoop(c, delayed, WriteLoop(c, call), call.output)
  }

  function AfterLoop(c: Conn, delayed: bool, l: Loop, output: Err): Ret
    requires c.current.Some? && c.current.value.op.Writing?
  {
    if l.Running? then Ret(c, Ok) else
    var op := Writing(l.c, c.current.value.op.dontblock);
    Written(c.(current := Some(c.current.value.(op := op)), took := c.took + l.took), l.err, output, delayed)
  }

  /** What follows the loop. */
  function Written(c: Conn, loopErr: Err, output: Err, delayed: bool): Ret
    requires c.current.Some? && c.current.value.op.Writing?
  {
    var v := Conclude(c.current.value.op.w, c.current.value.op.dontblock, loopErr, output);
    if v.finished then Ret(Complete(c, v.err, delayed), Ok) else Ret(c, Mem)
  }

  lemma {:induction false} WrittenIs(c: Conn, loopErr: Err, output: Err, delayed: bool, err: Err)
    requires c.current.Some? && c.current.value.op.Writing?
    requires Conclude(c.current.value.op.w, c.current.value.op.dontblock, loopErr, output) == Verdict(true, err)
    ensures Written(c, loopErr, output, delayed) == Ret(Complete(c, err, delayed), Ok)
  {
  }

  /** `pcb->state` and `TF_RXCLOSED` as far as they matter, and what `tcp_close` or
      `tcp_shutdown` answers. */
  datatype CloseReply = CloseReply(finWait: bool, rxClosed: bool, err: Err)

  function ShutClose(op: Op, r: CloseReply): bool
    requires op.Closing?
  {
    (op.rx && op.tx) || (op.rx && r.finWait) || (op.tx && r.rxClosed)
  }

  /** The callbacks that stay registered while `tcp_close`/`tcp_shutdown` is tried. */
  function Unhook(p: Pcb, op: Op, shutClose: bool): Pcb
    requires op.Closing?
  {
    var q := p.(arg := p.arg && !shutClose);
    if p.listening then q
    else q.(sent := q.sent && !op.tx, poll := q.poll && !shutClose, errf := q.errf && !shutClose)
  }

  /** Out of memory is the one failure that is tried again, as long as there are polls left. */
  predicate CloseFinished(op: Op, r: CloseReply)
    requires op.Closing?
  {
    r.err != Mem || op.pollsLeft == 0
  }

  function DoCloseInternal(c: Conn, delayed: bool, r: CloseReply): Ret {
    if c.current.None? || !c.current.value.op.Closing? || c.pcb.None? then Ret(c, Ok) else
    var op := c.current.value.op;
    var sc := ShutClose(op, r);
    var p := Unhook(c.pcb.value, op, sc);
    if !CloseFinished(op, r) then
      // wait: get called again from poll_tcp or sent_tcp
      Ret(c.(pcb := Some(p.(sent := p.sent || op.tx, poll := true, errf := true, arg := true))), r.err)
    else
      var err := if r.err == Mem && sc then Ok else r.err;
      Ret(Complete(c, err, delayed).(pcb := if err == Ok && sc then None else Some(p)), Ok)
  }

  function DoConnect(c: Conn, id: nat, tcp: Err): Conn {
    if c.pcb.None? then Refuse(c, id, ToConnect, Clsd)
    else if c.state == StConnect then Refuse(c, id, ToConnect, Already)
    else if c.state != StNone then Refuse(c, id, ToConnect, IsConn)
    else
      var d := c.(pcb := Some(SetUp(c.pcb.value)));
      if tcp != Ok then Refuse(d, id, ToConnect, tcp)
      else
        var e := d.(pcb := Some(d.pcb.value.(connecting := true)), state := StConnect, inNbConnect := c.nonblocking);
        if c.nonblocking then Refuse(e, id, ToConnect, InProgress)
        else e.(current := Some(Msg(id, Connecting)), ledger := Sleep(e.ledger, id))
  }

  /** The netconn when `lwip_netconn_do_write` calls `lwip_netconn_do_writemore`. */
  function BeginWrite(c: Conn, id: nat, vectors: seq<seq<byte>>, dontblock: bool): Conn {
    var op := Writing(Start(vectors, |Flatten(vectors)|), c.nonblocking || dontblock);
    c.(state := StWrite, current := Some(Msg(id, op)), took := [])
  }

  function DoWrite(c: Conn, id: nat, vectors: seq<seq<byte>>, dontblock: bool, call: WriteCall): Conn {
    var d := c.(pendingErr := Ok);  // netconn_err reads and clears it
    if c.pendingErr != Ok then Refuse(d, id, ToWrite, c.pendingErr)
    else if c.state != StNone then Refuse(d, id, ToWrite, InProgress)
    else if c.pcb.None? then Refuse(d, id, ToWrite, NotConn)
    else WaitOn(DoWritemore(BeginWrite(d, id, vectors, dontblock), false, call), id)
  }

  /** The netconn when a close or delete calls `lwip_netconn_do_close_internal`. */
  function BeginClose(c: Conn, id: nat, rx: bool, tx: bool, polls: nat): Conn {
    c.(state := StClose, current := Some(Msg(id, Closing(rx, tx, polls))))
  }

  function DoClose(c: Conn, id: nat, rx: bool, tx: bool, polls: nat, r: CloseReply): Conn {
    if c.pcb.None? || (!(rx && tx) && c.state == StListen) || c.state == StConnect then Refuse(c, id, ToClose, NotConn)
    else if c.state == StWrite then Refuse(c, id, ToClose, InProgress)
    else WaitOn(DoCloseInternal(BeginClose(c, id, rx, tx, polls), false, r), id)
  }

  function DoDelconn(c: Conn, id: nat, polls: nat, r: CloseReply): Conn {
    if c.state in {StWrite, StClose} || (c.state == StConnect && !c.inNbConnect) then Refuse(c, id, ToClose, InProgress)
    else if c.pcb.None? then Refuse(c, id, ToClose, Ok)
    else WaitOn(DoCloseInternal(BeginClose(c, id, true, true, polls), false, r), id)
  }

  /** What `lwip_netconn_do_listen` meets: a pcb that is not CLOSED, no listen pcb, no
      accept mailbox, or success. */
  datatype ListenReply = PcbInUse | NoListenPcb(err: Err) | NoAcceptMbox(err: Err) | Listening

  function ListenErr(c: Conn, r: ListenReply): Err {
    if c.pcb.None? then NotConn
    else if c.state == StListen then Ok
    else if c.state != StNone then NotConn
    else match r
      case PcbInUse => Val
      case NoListenPcb(e) => e
      case NoAcceptMbox(e) => e
      case Listening => Ok
  }

  function ListenConn(c: Conn, r: ListenReply): Conn {
    if c.pcb.None? || c.state != StNone then c
    else if r.NoAcceptMbox? then c.(pcb := None)
    else if r.Listening? then c.(state := StListen, pcb := Some(Pcb(false, true, true, false, false, false)))
    else c
  }

  function DoListen(c: Conn, id: nat, r: ListenReply): Conn {
    Refuse(ListenConn(c, r), id, ToListen, ListenErr(c, r))
  }

  function Connected(c: Conn, err: Err): Conn {
    if c.pcb.None? then c else
    var p := c.pcb.value.(connecting := false);
    var d := c.(pcb := Some(if err == Ok then SetUp(p) else p), inNbConnect := false);
    if c.inNbConnect then d.(state := StNone, current := None) else Complete(d, err, true)
  }

  function ErrTcp(c: Conn, err: Err): Conn {
    var d := c.(pcb := None, pendingErr := err, state := StNone);
    if c.state in {StWrite, StClose, StConnect} then
      var e := d.(inNbConnect := false);
      if c.inNbConnect then e else Complete(e, if c.state == StClose then Ok else err, true)
    else d
  }

  /** Used by both `sent_tcp` and `poll_tcp`. */
  function Resume(c: Conn, call: WriteCall, r: CloseReply): Conn {
    if c.state == StWrite then DoWritemore(c, true, call).c
    else if c.state == StClose then DoCloseInternal(c, true, r).c
    else c
  }

  function SentTcp(c: Conn, call: WriteCall, r: CloseReply): Conn {
    Resume(c, call, r)
  }

  /** `polls_left` of an outstanding close. */
  function CountPoll(c: Conn): Conn {
    if c.state == StClose && c.current.Some? && c.current.value.op.Closing? && c.current.value.op.pollsLeft > 0 then
      var m := c.current.value;
      c.(current := Some(m.(op := m.op.(pollsLeft := m.op.pollsLeft - 1))))
    else c
  }

  function PollTcp(c: Conn, call: WriteCall, r: CloseReply): Conn {
    Resume(CountPoll(c), call, r)
  }

  /** A sleeping thread takes the semaphore. Any of them may be the one. */
  function Wake(c: Conn, id: nat): Conn {
    if c.ledger.tokens == 0 then c
    else c.(ledger := c.ledger.(asleep := c.ledger.asleep - {id}, tokens := c.ledger.tokens - 1))
  }

  // ------------------------------------------------------------------ events and runs

  datatype Event =
    | EvConnect(id: nat, tcp: Err)
    | EvWrite(id: nat, vectors: seq<seq<byte>>, dontblock: bool, call: WriteCall)
    | EvClose(id: nat, rx: bool, tx: bool, polls: nat, r: CloseReply)
    | EvDelete(id: nat, polls: nat, r: CloseReply)
    | EvListen(id: nat, lr: ListenReply)
    | EvConnected(err: Err)
    | EvErr(err: Err)
    | EvSent(call: WriteCall, r: CloseReply)
    | EvPoll(call: WriteCall, r: CloseReply)
    | EvWake(id: nat)

  predicate IsMessage(e: Event) {
    e.EvConnect? || e.EvWrite? || e.EvClose? || e.EvDelete? || e.EvListen?
  }

  function Step(c: Conn, e: Event): Conn {
    match e
    case EvConnect(id, tcp) => DoConnect(c, id, tcp)
    case EvWrite(id, vectors, dontblock, call) => DoWrite(c, id, vectors, dontblock, call)
    case EvClose(id, rx, tx, polls, r) => DoClose(c, id, rx, tx, polls, r)
    case EvDelete(id, polls, r) => DoDelconn(c, id, polls, r)
    case EvListen(id, lr) => DoListen(c, id, lr)
    case EvConnected(err) => Connected(c, err)
    case EvErr(err) => ErrTcp(c, err)
    case EvSent(call, r) => SentTcp(c, call, r)
    case EvPoll(call, r) => PollTcp(c, call, r)
    case EvWake(id) => Wake(c, id)
  }

  function Run(c: Conn, es: seq<Event>): Conn
    decreases |es|
  {
    if es == [] then c else Run(Step(c, es[0]), es[1..])
  }

  // ------------------------------------------------------------------ what runs respect

  /** The call returns (see `TerminatesIff` for when it does not). */
  ghost predicate Returns(c: Conn, call: WriteCall) {
    c.state == StWrite && c.current.Some? && c.current.value.op.Writing? ==> WriteLoop(c, call).Done?
  }

  /** `tcp_close` frees a pcb that is still connecting or listens (tcp.c:376-398), so it
      succeeds. */
  ghost predicate CloseReplyOk(c: Conn, r: CloseReply) {
    c.pcb.Some? && (c.pcb.value.connecting || c.pcb.value.listening) ==> r.err == Ok
  }

  ghost predicate Fresh(c: Conn, id: nat) {
    id !in c.ledger.outcome && id !in c.ledger.waited
  }

  /** When an event can happen: a message is new, a callback is registered, TCP answers as
      above, a write has data in its last vector, and no close is posted while another one
      is outstanding (only asserted at api_msg.c:1981). */
  ghost predicate StepOk(c: Conn, e: Event) {
    match e
    case EvConnect(id, tcp) => Fresh(c, id)
    case EvWrite(id, vectors, dontblock, call) =>
      && Fresh(c, id)
      && vectors != [] && |Flatten(vectors)| > 0
      && (c.nonblocking || dontblock || vectors[|vectors| - 1] != [])
      && NetconnWrite.Run(Start(vectors, |Flatten(vectors)|), c.nonblocking || dontblock, call.replies, 0, call.n).Done?
    case EvClose(id, rx, tx, polls, r) =>
      Fresh(c, id) && (rx || tx) && polls > 0 && CloseReplyOk(c, r) && c.state != StClose
    case EvDelete(id, polls, r) => Fresh(c, id) && polls > 0 && CloseReplyOk(c, r)
    case EvListen(id, lr) => Fresh(c, id)
    case EvConnected(err) => c.pcb.Some? && c.pcb.value.connecting && c.pcb.value.arg
    case EvErr(err) => c.pcb.Some? && c.pcb.value.errf && err in {Abrt, Rst, Clsd}
    case EvSent(call, r) => c.pcb.Some? && c.pcb.value.sent && c.pcb.value.arg && Returns(c, call) && CloseReplyOk(c, r)
    case EvPoll(call, r) => c.pcb.Some? && c.pcb.value.poll && c.pcb.value.arg && Returns(c, call) && CloseReplyOk(c, r)
    case EvWake(id) => id in c.ledger.asleep && c.ledger.tokens > 0
  }

  ghost predicate RunOk(c: Conn, es: seq<Event>)
    decreases |es|
  {
    es == [] || (StepOk(c, es[0]) && RunOk(Step(c, es[0]), es[1..]))
  }

  // ------------------------------------------------------------------ the invariants

  /** A blocking write that waits for more space. */
  ghost predicate WriteInv(op: Op, took: seq<byte>) {
    && op.Writing? && !op.dontblock
    && Ready(op.w) && op.w.vectors[|op.w.vectors| - 1] != []
    && op.w.len == |Flatten(op.w.vectors)| && op.w.offset < op.w.len
    && took == Flatten(op.w.vectors)[..op.w.offset]
  }

  /** How `state`, `current_msg`, `pcb` and the nonblocking-connect flag fit together. */
  ghost predicate CoreInv(c: Conn) {
    && (match c.state
        case StNone => c.current.None?
        case StListen => c.current.None?
        case StWrite => c.current.Some? && WriteInv(c.current.value.op, c.took) && !c.nonblocking
        case StConnect =>
          && c.inNbConnect == c.nonblocking && c.current.Some? != c.inNbConnect
          && (c.current.Some? ==> c.current.value.op.Connecting?)
        case StClose =>
          && c.current.Some? && c.current.value.op.Closing? && c.current.value.op.pollsLeft > 0
          && (c.current.value.op.rx || c.current.value.op.tx))
    && (c.state != StNone ==> c.pcb.Some?)
    && (c.inNbConnect ==> c.state == StConnect || c.pcb.None?)
    && (c.pcb.Some? ==> c.pcb.value.connecting == (c.state == StConnect)
                        && c.pcb.value.listening == (c.state == StListen))
    && Hooked(c)
  }

  /** The callbacks that can finish an operation are registered together; they are missing
      only after a full close failed for good. */
  ghost predicate Hooked(c: Conn) {
    c.pcb.Some? && !c.pcb.value.listening ==> c.pcb.value.arg == c.pcb.value.poll == c.pcb.value.errf
  }

  /** What a finished write reports: the number of bytes is the number TCP took, and those are
      the first ones of the request; with ERR_OK a blocking write took all of them and any
      other at least one; ERR_WOULDBLOCK means none. */
  ghost predicate OutcomeInv(o: Outcome) {
    o.request.Some? ==>
      && Reports(Flatten(o.request.value.vectors), o.took, o.written)
      && (o.err == Ok && !o.request.value.dontblock ==> o.written == |Flatten(o.request.value.vectors)|)
      && (o.err == Ok ==> o.written > 0)
      && (o.err == WouldBlock ==> o.request.value.dontblock && o.written == 0)
  }

  ghost predicate Reports(all: seq<byte>, took: seq<byte>, written: nat) {
    written <= |all| && took == all[..written]
  }

  ghost predicate Once(s: seq<nat>) {
    forall i, j :: 0 <= i < j < |s| ==> s[i] != s[j]
  }

  /** Exactly-once completion, where `current` is the call whose message is outstanding:
      the calls that ever waited are the signalled ones and the outstanding one, each is
      signalled at most once, and only after its result was stored. */
  ghost predicate LedgerInv(l: Ledger, current: Option<nat>) {
    && Once(l.signals)
    && (forall id | id in l.signals :: id in l.waited && id in l.outcome)
    && (forall id | id in l.waited :: id in l.signals || current == Some(id))
    && (current.Some? ==> current.value in l.waited && current.value !in l.outcome)
    && (forall id | id in l.outcome :: OutcomeInv(l.outcome[id]))
  }

  function CurrentId(c: Conn): Option<nat> {
    if c.current.Some? then Some(c.current.value.id) else None
  }

  ghost predicate Inv(c: Conn) { CoreInv(c) && LedgerInv(c.ledger, CurrentId(c)) }

  /** The LWIP_ASSERTs on these fields that an event executes; for those after a wait see
      `WakeAsserts`. */
  ghost predicate AssertsHold(c: Conn, e: Event) {
    match e
    case EvConnect(id, tcp) =>
      var d := DoConnect(c, id, tcp);
      id in d.ledger.waited ==> d.state == StConnect
    case EvWrite(id, vectors, dontblock, call) =>
      c.pendingErr == Ok && c.state == StNone && c.pcb.Some? ==>
        && c.current.None? && |Flatten(vectors)| != 0
        && var d := BeginWrite(c, id, vectors, dontblock);
           WritemoreAsserts(d, call) && WaitAsserts(DoWritemore(d, false, call), StWrite)
    case EvClose(id, rx, tx, polls, r) =>
      c.pcb.Some? && ((rx && tx) || c.state != StListen) && c.state !in {StConnect, StWrite} ==>
        StartCloseAsserts(c, id, rx, tx, polls, r)
    case EvDelete(id, polls, r) =>
      !(c.state in {StWrite, StClose} || (c.state == StConnect && !c.inNbConnect)) ==>
        && (c.state != StConnect || c.inNbConnect)
        && (c.pcb.Some? ==> StartCloseAsserts(c, id, true, true, polls, r))
    case EvListen(id, lr) => true
    case EvConnected(err) => c.state == StConnect && c.current.Some? == !c.inNbConnect
    case EvErr(err) =>
      if c.state in {StWrite, StClose, StConnect} then !c.inNbConnect ==> c.current.Some? else c.current.None?
    case EvSent(call, r) => ResumeAsserts(c, call, r)
    case EvPoll(call, r) => ResumeAsserts(CountPoll(c), call, r)
    case EvWake(id) => true
  }

  /** Lines 1651-1657 and, in every pass, 1699. */
  ghost predicate WritemoreAsserts(c: Conn, call: WriteCall) {
    && c.state == StWrite && c.current.Some? && c.current.value.op.Writing? && c.pcb.Some?
    && c.current.value.op.w.offset < c.current.value.op.w.len && c.current.value.op.w.cnt > 0
    && LengthAsserts(c.current.value.op.w, c.current.value.op.dontblock, call.replies, 0, call.n)
  }

  /** Lines 932-934, 1089 and 1101. */
  ghost predicate CloseInternalAsserts(c: Conn, r: CloseReply) {
    && c.state == StClose && c.pcb.Some? && c.current.Some? && c.current.value.op.Closing?
    && (!CloseFinished(c.current.value.op, r) ==> !c.pcb.value.listening && r.err != Ok)
  }

  /** "state!" before the wait: lines 1178, 1832 and 1986. */
  ghost predicate WaitAsserts(ret: Ret, state: State) { ret.err != Ok ==> ret.c.state == state }

  ghost predicate StartCloseAsserts(c: Conn, id: nat, rx: bool, tx: bool, polls: nat, r: CloseReply) {
    && c.current.None?
    && var d := BeginClose(c, id, rx, tx, polls);
       CloseInternalAsserts(d, r) && WaitAsserts(DoCloseInternal(d, false, r), StClose)
  }

  ghost predicate ResumeAsserts(c: Conn, call: WriteCall, r: CloseReply) {
    && (c.state == StWrite ==> WritemoreAsserts(c, call))
    && (c.state == StClose ==> CloseInternalAsserts(c, r))
  }

  lemma {:induction false} AssertsFollow(c: Conn, e: Event)
    requires Inv(c) && StepOk(c, e)
    ensures AssertsHold(c, e)
  {
    match e {
      case EvConnect(id, tcp) => ConnectAssertsFollow(c, id, tcp);
      case EvWrite(id, vectors, dontblock, call) =>
        if c.pendingErr == Ok && c.state == StNone && c.pcb.Some? {
          WriteAssertsFollow(c, id, vectors, dontblock, call);
        }
      case EvClose(id, rx, tx, polls, r) =>
        if c.current.None? && c.pcb.Some? && polls > 0 {
          StartCloseAssertsFollow(c, id, rx, tx, polls, r);
        }
      case EvDelete(id, polls, r) =>
        if c.current.None? && c.pcb.Some? && polls > 0 {
          StartCloseAssertsFollow(c, id, true, true, polls, r);
        }
      case EvSent(call, r) => ResumeAssertsFollow(c, call, r);
      case EvPoll(call, r) => PollAssertsFollow(c, call, r);
      case _ =>
    }
  }

  lemma {:induction false} ConnectAssertsFollow(c: Conn, id: nat, tcp: Err)
    requires Fresh(c, id)
    ensures AssertsHold(c, EvConnect(id, tcp))
  {
  }

  lemma {:induction false} WriteAssertsFollow(c: Conn, id: nat, vectors: seq<seq<byte>>, dontblock: bool,
      call: WriteCall)
    requires CoreInv(c) && c.state == StNone && c.pcb.Some? && vectors != [] && |Flatten(vectors)| > 0
    ensures c.current.None?
    ensures var d := BeginWrite(c, id, vectors, dontblock);
            WritemoreAsserts(d, call) && WaitAsserts(DoWritemore(d, false, call), StWrite)
  {
    StartReady(vectors);
    RunLengths(Start(vectors, |Flatten(vectors)|), c.nonblocking || dontblock, call.replies, 0, call.n);
  }

  lemma {:induction false} WaitsInState(c: Conn, call: WriteCall)
    ensures WaitAsserts(DoWritemore(c, false, call), c.state)
  {
  }

  lemma {:induction false} StartCloseAssertsFollow(c: Conn, id: nat, rx: bool, tx: bool, polls: nat, r: CloseReply)
    requires c.current.None? && c.pcb.Some? && CloseReplyOk(c, r) && polls > 0
    ensures StartCloseAsserts(c, id, rx, tx, polls, r)
  {
  }

  lemma {:induction false} StartReady(vectors: seq<seq<byte>>)
    requires vectors != []
    ensures Ready(Start(vectors, |Flatten(vectors)|))
  {
    assert vectors[..0] == [];
  }

  lemma {:induction false} ResumeAssertsFollow(c: Conn, call: WriteCall, r: CloseReply)
    requires CoreInv(c)
    ensures ResumeAsserts(c, call, r)
  {
    if c.state == StWrite {
      var op := c.current.value.op;
      RunLengths(op.w, op.dontblock, call.replies, 0, call.n);
    }
  }

  lemma {:induction false} PollAssertsFollow(c: Conn, call: WriteCall, r: CloseReply)
    requires CoreInv(c)
    ensures ResumeAsserts(CountPoll(c), call, r)
  {
    if c.state != StClose {
      ResumeAssertsFollow(c, call, r);
    }
  }

  // ------------------------------------------------------------------ one step at a time

  /** What a message does to the ledger: its own call gets a result at once, or goes to sleep
      on a netconn that was idle. */
  ghost predicate MessageDelta(c: Conn, d: Conn, id: nat) {
    || (CurrentId(d) == CurrentId(c) && id in d.ledger.outcome && OutcomeInv(d.ledger.outcome[id])
        && d.ledger == Record(c.ledger, id, d.ledger.outcome[id]))
    || (c.current.None? && CurrentId(d) == Some(id) && d.ledger == Sleep(c.ledger, id))
  }

  /** What a callback does to it: nothing, or it ends the outstanding call and signals it. */
  ghost predicate CallbackDelta(c: Conn, d: Conn) {
    || (d.ledger == c.ledger && CurrentId(d) == CurrentId(c) && (c.state == StNone ==> d.state == StNone))
    || (c.current.Some? && d.current.None? && d.state == StNone
        && var id := c.current.value.id;
           id in d.ledger.outcome && OutcomeInv(d.ledger.outcome[id])
           && d.ledger == Signal(Record(c.ledger, id, d.ledger.outcome[id]), id))
  }

  lemma {:induction false} MessageDeltaKeeps(c: Conn, d: Conn, id: nat)
    requires LedgerInv(c.ledger, CurrentId(c)) && Fresh(c, id) && MessageDelta(c, d, id)
    ensures LedgerInv(d.ledger, CurrentId(d))
  {
  }

  lemma {:induction false} CallbackDeltaKeeps(c: Conn, d: Conn)
    requires LedgerInv(c.ledger, CurrentId(c)) && CallbackDelta(c, d)
    ensures LedgerInv(d.ledger, CurrentId(d))
  {
    if d.ledger != c.ledger {
      var l, m, id := c.ledger, d.ledger, c.current.value.id;
      assert id !in l.signals;
      forall x | x in m.signals ensures x in m.waited && x in m.outcome {
        assert x in l.signals || x == id;
      }
      forall x | x in m.waited ensures x in m.signals {
        assert x in l.signals || x == id;
      }
    }
  }

  /** What one call of `lwip_netconn_do_writemore` leaves behind: a request that can be resumed,
      or a result that is right about the bytes TCP took. */
  ghost predicate LoopFacts(w: Cursor, db: bool, took: seq<byte>, l: Loop, output: Err) {
    && l.Done? && l.c.vectors == w.vectors
    && var v := Conclude(l.c, db, l.err, output);
       && (!v.finished ==> WriteInv(Writing(l.c, db), took + l.took))
       && (v.finished ==> OutcomeInv(Outcome(ToWrite, v.err, Some(Request(w.vectors, db)), took + l.took, l.c.offset)))
  }

  lemma {:induction false} CallFacts(w: Cursor, db: bool, call: WriteCall, took: seq<byte>)
    requires Ready(w) && w.len == |Flatten(w.vectors)| && w.len > 0
    requires db || w.vectors[|w.vectors| - 1] != []
    requires took == Flatten(w.vectors)[..w.offset]
    requires NetconnWrite.Run(w, db, call.replies, 0, call.n).Done?
    ensures LoopFacts(w, db, took, NetconnWrite.Run(w, db, call.replies, 0, call.n), call.output)
  {
    RunConserves(w, db, call.replies, 0, call.n);
    CallResult(w, db, call.replies, call.n, call.output);
    UnfinishedHasMore(w, db, call.replies, call.n, call.output);
    FactsOf(w, db, took, NetconnWrite.Run(w, db, call.replies, 0, call.n), call.output);
  }

  lemma {:induction false} FactsOf(w: Cursor, db: bool, took: seq<byte>, l: Loop, output: Err)
    requires l.Done? && l.c.vectors == w.vectors && l.c.len == |Flatten(w.vectors)| && Positioned(l.c)
    requires db || w.vectors[|w.vectors| - 1] != []
    requires took + l.took == Flatten(w.vectors)[..l.c.offset]
    requires var v := Conclude(l.c, db, l.err, output);
             && (v.finished && v.err == Ok && !db ==> l.c.offset == l.c.len)
             && (db ==> v.finished)
             && (v.err == WouldBlock ==> db && l.c.offset == 0)
             && (v.err == Ok && v.finished ==> l.c.offset > 0)
             && (!v.finished ==> l.c.offset < l.c.len && l.c.cnt > 0)
    ensures LoopFacts(w, db, took, l, output)
  {
  }

  lemma {:induction false} AfterLoopKeeps(c: Conn, l: Loop, output: Err)
    requires CoreInv(c) && c.state == StWrite
    requires LoopFacts(c.current.value.op.w, c.current.value.op.dontblock, c.took, l, output)
    ensures var d := AfterLoop(c, true, l, output).c; CoreInv(d) && CallbackDelta(c, d)
  {
  }

  lemma {:induction false} WritemoreKeeps(c: Conn, call: WriteCall)
    requires CoreInv(c) && c.state == StWrite && Returns(c, call)
    ensures var d := DoWritemore(c, true, call).c; CoreInv(d) && CallbackDelta(c, d)
  {
    var op := c.current.value.op;
    CallFacts(op.w, op.dontblock, call, c.took);
    AfterLoopKeeps(c, WriteLoop(c, call), call.output);
  }

  lemma {:induction false} FirstLoopKeeps(c: Conn, id: nat, w: Cursor, db: bool, l: Loop, output: Err)
    requires CoreInv(c) && c.state == StNone && c.pcb.Some? && LoopFacts(w, db, [], l, output) && (c.nonblocking ==> db)
    ensures var e := c.(state := StWrite, current := Some(Msg(id, Writing(w, db))), took := []);
            var d := WaitOn(AfterLoop(e, false, l, output), id);
            CoreInv(d) && MessageDelta(c, d, id)
  {
  }

  lemma {:induction false} WriteStartKeeps(c: Conn, id: nat, w: Cursor, db: bool, call: WriteCall)
    requires CoreInv(c) && c.state == StNone && c.pcb.Some?
    requires Ready(w) && w.offset == 0 && w.len == |Flatten(w.vectors)| && w.len > 0 && (c.nonblocking ==> db)
    requires db || w.vectors[|w.vectors| - 1] != []
    requires NetconnWrite.Run(w, db, call.replies, 0, call.n).Done?
    ensures var e := c.(state := StWrite, current := Some(Msg(id, Writing(w, db))), took := []);
            var d := WaitOn(DoWritemore(e, false, call), id);
            CoreInv(d) && MessageDelta(c, d, id)
  {
    CallFacts(w, db, call, []);
    FirstLoopKeeps(c, id, w, db, NetconnWrite.Run(w, db, call.replies, 0, call.n), call.output);
  }

  lemma {:induction false} WriteKeeps(c: Conn, id: nat, vectors: seq<seq<byte>>, dontblock: bool, call: WriteCall)
    requires CoreInv(c) && StepOk(c, EvWrite(id, vectors, dontblock, call))
    ensures var d := DoWrite(c, id, vectors, dontblock, call); CoreInv(d) && MessageDelta(c, d, id)
  {
    if c.pendingErr == Ok && c.state == StNone && c.pcb.Some? {
      StartReady(vectors);
      WriteStartKeeps(c.(pendingErr := Ok), id, Start(vectors, |Flatten(vectors)|), c.nonblocking || dontblock, call);
    }
  }

  /** A close that is tried again from a callback. */
  ghost predicate ClosePending(c: Conn) {
    && c.current.Some? && c.current.value.op.Closing? && c.state == StClose
    && (c.current.value.op.rx || c.current.value.op.tx)
    && c.pcb.Some? && !c.pcb.value.connecting && !c.pcb.value.listening && !c.inNbConnect && Hooked(c)
  }

  lemma {:induction false} CloseInternalKeeps(c: Conn, r: CloseReply)
    requires ClosePending(c)
    ensures var d := DoCloseInternal(c, true, r).c; CoreInv(d) && CallbackDelta(c, d)
  {
  }

  lemma {:induction false} ClosePostCore(c: Conn, id: nat, rx: bool, tx: bool, polls: nat, r: CloseReply)
    requires CoreInv(c) && c.current.None? && polls > 0 && CloseReplyOk(c, r) && c.pcb.Some? && (rx || tx)
    requires c.pcb.value.connecting || c.pcb.value.listening ==> rx && tx
    ensures CoreInv(DoCloseInternal(BeginClose(c, id, rx, tx, polls), false, r).c)
  {
    var d := DoCloseInternal(BeginClose(c, id, rx, tx, polls), false, r).c;
    if r.err == Mem {
      assert d.state == StClose && d.pcb.Some? && Hooked(d);
    } else {
      assert d.state == StNone && d.current.None?;
      if c.pcb.value.connecting || c.pcb.value.listening {
        assert d.pcb.None?;
      } else {
        assert Hooked(d);
      }
    }
  }

  lemma {:induction false} ClosePostKeeps(c: Conn, id: nat, rx: bool, tx: bool, polls: nat, r: CloseReply)
    requires CoreInv(c) && c.current.None? && polls > 0 && CloseReplyOk(c, r) && c.pcb.Some? && (rx || tx)
    requires c.pcb.value.connecting || c.pcb.value.listening ==> rx && tx
    ensures var d := WaitOn(DoCloseInternal(BeginClose(c, id, rx, tx, polls), false, r), id);
            CoreInv(d) && MessageDelta(c, d, id)
  {
    ClosePostCore(c, id, rx, tx, polls, r);
    var d := WaitOn(DoCloseInternal(BeginClose(c, id, rx, tx, polls), false, r), id);
    if r.err == Mem {
      assert d.ledger == Sleep(c.ledger, id);
    } else {
      assert d.ledger == Record(c.ledger, id, Failed(ToClose, r.err));
    }
  }

  lemma {:induction false} CloseKeeps(c: Conn, id: nat, rx: bool, tx: bool, polls: nat, r: CloseReply)
    requires CoreInv(c) && StepOk(c, EvClose(id, rx, tx, polls, r))
    ensures var d := DoClose(c, id, rx, tx, polls, r); CoreInv(d) && MessageDelta(c, d, id)
  {
    if c.pcb.Some? && ((rx && tx) || c.state != StListen) && c.state in {StNone, StListen} {
      ClosePostKeeps(c, id, rx, tx, polls, r);
    }
  }

  lemma {:induction false} DeleteKeeps(c: Conn, id: nat, polls: nat, r: CloseReply)
    requires CoreInv(c) && StepOk(c, EvDelete(id, polls, r))
    ensures var d := DoDelconn(c, id, polls, r); CoreInv(d) && MessageDelta(c, d, id)
  {
    if c.pcb.Some? && c.current.None? {
      ClosePostKeeps(c, id, true, true, polls, r);
    }
  }

  lemma {:induction false} RefuseKeeps(c: Conn, id: nat, kind: Kind, err: Err)
    requires CoreInv(c)
    ensures var d := Refuse(c, id, kind, err); CoreInv(d) && MessageDelta(c, d, id)
  {
  }

  lemma {:induction false} ConnectStart(c: Conn, id: nat)
    requires CoreInv(c) && c.state == StNone && c.pcb.Some?
    ensures var d := DoConnect(c, id, Ok); CoreInv(d) && MessageDelta(c, d, id)
  {
  }

  lemma {:induction false} ConnectKeeps(c: Conn, id: nat, tcp: Err)
    requires CoreInv(c)
    ensures var d := DoConnect(c, id, tcp); CoreInv(d) && MessageDelta(c, d, id)
  {
    if c.pcb.None? {
      RefuseKeeps(c, id, ToConnect, Clsd);
    } else if c.state == StConnect {
      RefuseKeeps(c, id, ToConnect, Already);
    } else if c.state != StNone {
      RefuseKeeps(c, id, ToConnect, IsConn);
    } else if tcp != Ok {
      RefuseKeeps(c.(pcb := Some(SetUp(c.pcb.value))), id, ToConnect, tcp);
    } else {
      ConnectStart(c, id);
    }
  }

  lemma {:induction false} ListenKeeps(c: Conn, id: nat, r: ListenReply)
    requires CoreInv(c)
    ensures var d := DoListen(c, id, r); CoreInv(d) && MessageDelta(c, d, id)
  {
  }

  lemma {:induction false} ConnectedKeeps(c: Conn, err: Err)
    requires CoreInv(c) && StepOk(c, EvConnected(err))
    ensures var d := Connected(c, err); CoreInv(d) && CallbackDelta(c, d)
  {
  }

  lemma {:induction false} ErrKeeps(c: Conn, err: Err)
    requires CoreInv(c) && StepOk(c, EvErr(err))
    ensures var d := ErrTcp(c, err); CoreInv(d) && CallbackDelta(c, d)
  {
  }

  lemma {:induction false} ResumeKeeps(c: Conn, call: WriteCall, r: CloseReply)
    requires CoreInv(c) && Returns(c, call)
    ensures var d := Resume(c, call, r); CoreInv(d) && CallbackDelta(c, d)
  {
    if c.state == StWrite {
      WritemoreKeeps(c, call);
    } else if c.state == StClose {
      CloseInternalKeeps(c, r);
    }
  }

  lemma {:induction false} PollCloseKeeps(c: Conn, r: CloseReply)
    requires CoreInv(c) && c.state == StClose
    ensures var d := DoCloseInternal(CountPoll(c), true, r).c; CoreInv(d) && CallbackDelta(c, d)
  {
    var c' := CountPoll(c);
    assert ClosePending(c') && c'.ledger == c.ledger && CurrentId(c') == CurrentId(c);
    CloseInternalKeeps(c', r);
    SameCall(c, c', DoCloseInternal(c', true, r).c);
  }

  lemma {:induction false} SameCall(c: Conn, c': Conn, d: Conn)
    requires c'.ledger == c.ledger && CurrentId(c') == CurrentId(c) && c'.state == c.state && CallbackDelta(c', d)
    ensures CallbackDelta(c, d)
  {
  }

  lemma {:induction false} PollKeeps(c: Conn, call: WriteCall, r: CloseReply)
    requires CoreInv(c) && Returns(c, call)
    ensures var d := PollTcp(c, call, r); CoreInv(d) && CallbackDelta(c, d)
  {
    if c.state == StClose {
      PollCloseKeeps(c, r);
    } else {
      ResumeKeeps(c, call, r);
    }
  }

  lemma {:induction false} MessageKeeps(c: Conn, e: Event)
    requires CoreInv(c) && StepOk(c, e) && IsMessage(e)
    ensures var d := Step(c, e); CoreInv(d) && MessageDelta(c, d, e.id)
  {
    match e
    case EvConnect(id, tcp) => ConnectKeeps(c, id, tcp);
    case EvWrite(id, vectors, dontblock, call) => WriteKeeps(c, id, vectors, dontblock, call);
    case EvClose(id, rx, tx, polls, r) => CloseKeeps(c, id, rx, tx, polls, r);
    case EvDelete(id, polls, r) => DeleteKeeps(c, id, polls, r);
    case EvListen(id, lr) => ListenKeeps(c, id, lr);
  }

  lemma {:induction false} CallbackKeeps(c: Conn, e: Event)
    requires CoreInv(c) && StepOk(c, e) && !IsMessage(e) && !e.EvWake?
    ensures var d := Step(c, e); CoreInv(d) && CallbackDelta(c, d)
  {
    match e
    case EvConnected(err) => ConnectedKeeps(c, err);
    case EvErr(err) => ErrKeeps(c, err);
    case EvSent(call, r) => ResumeKeeps(c, call, r);
    case EvPoll(call, r) => PollKeeps(c, call, r);
  }

  lemma {:induction false} StepKeeps(c: Conn, e: Event)
    requires Inv(c) && StepOk(c, e)
    ensures Inv(Step(c, e))
  {
    if IsMessage(e) {
      MessageKeeps(c, e);
      MessageDeltaKeeps(c, Step(c, e), e.id);
    } else if !e.EvWake? {
      CallbackKeeps(c, e);
      CallbackDeltaKeeps(c, Step(c, e));
    }
  }

  // ------------------------------------------------------------------ whole runs

  lemma {:induction false} RunKeeps(c: Conn, es: seq<Event>)
    requires Inv(c) && RunOk(c, es)
    ensures Inv(Run(c, es))
    decreases |es|
  {
    if es != [] {
      StepKeeps(c, es[0]);
      RunKeeps(Step(c, es[0]), es[1..]);
    }
  }

  ghost predicate RunAsserts(c: Conn, es: seq<Event>)
    decreases |es|
  {
    es == [] || (AssertsHold(c, es[0]) && RunAsserts(Step(c, es[0]), es[1..]))
  }

  lemma {:induction false} RunAssertsHold(c: Conn, es: seq<Event>)
    requires Inv(c) && RunOk(c, es)
    ensures RunAsserts(c, es)
    decreases |es|
  {
    if es != [] {
      AssertsFollow(c, es[0]);
      StepKeeps(c, es[0]);
      RunAssertsHold(Step(c, es[0]), es[1..]);
    }
  }

  /** Every run of a new netconn keeps the invariants and passes every LWIP_ASSERT. */
  lemma {:induction false} ProtocolSafe(nonblocking: bool, es: seq<Event>)
    requires RunOk(NewConn(nonblocking), es)
    ensures Inv(Run(NewConn(nonblocking), es))
    ensures RunAsserts(NewConn(nonblocking), es)
  {
    RunKeeps(NewConn(nonblocking), es);
    RunAssertsHold(NewConn(nonblocking), es);
  }

  /** The value returned by the two functions tells whether the message is still outstanding. */
  lemma {:induction false} ReturnTells(c: Conn, delayed: bool, call: WriteCall, r: CloseReply)
    requires c.current.Some? && c.pcb.Some?
    ensures c.current.value.op.Writing? && WriteLoop(c, call).Done? ==>
              var next := DoWritemore(c, delayed, call);
              (next.err != Ok <==> CurrentId(next.c) == CurrentId(c))
    ensures c.current.value.op.Closing? ==>
              var next := DoCloseInternal(c, delayed, r);
              (next.err != Ok <==> CurrentId(next.c) == CurrentId(c))
  {
  }

  /** A caller waits, which it does if the function it calls did not return ERR_OK, if and only
      if its message was left outstanding; otherwise it has its result and nothing was
      signalled. */
  lemma {:induction false} WaitsIffOutstanding(c: Conn, e: Event)
    requires Inv(c) && StepOk(c, e) && IsMessage(e)
    ensures var d := Step(c, e);
            && (e.id in d.ledger.waited <==> CurrentId(d) == Some(e.id))
            && (e.id in d.ledger.waited <==> e.id !in d.ledger.outcome)
            && d.ledger.signals == c.ledger.signals
  {
    MessageKeeps(c, e);
  }

  /** Only a full close that fails for good leaves a pcb without its callbacks: otherwise the
      poll and error callbacks that can end an outstanding call stay registered. */
  lemma {:induction false} CallbacksStay(c: Conn, e: Event)
    requires CoreInv(c) && StepOk(c, e) && Armed(c)
    requires (e.EvClose? || e.EvDelete? || e.EvSent? || e.EvPoll?) ==> e.r.err in {Ok, Mem}
    ensures Armed(Step(c, e))
  {
    match e
    case EvConnect(id, tcp) => ConnectArmed(c, id, tcp);
    case EvWrite(id, vectors, dontblock, call) => WriteArmed(c, id, vectors, dontblock, call);
    case EvClose(id, rx, tx, polls, r) => CloseArmed(c, Some(Msg(id, Closing(rx, tx, polls))), false, r);
    case EvDelete(id, polls, r) => CloseArmed(c, Some(Msg(id, Closing(true, true, polls))), false, r);
    case EvListen(id, lr) =>
    case EvConnected(err) =>
    case EvErr(err) =>
    case EvSent(call, r) => ResumeArmed(c, call, r);
    case EvPoll(call, r) => ResumeArmed(CountPoll(c), call, r);
    case EvWake(id) =>
  }

  lemma {:induction false} WriteArmed(c: Conn, id: nat, vectors: seq<seq<byte>>, dontblock: bool, call: WriteCall)
    requires Armed(c)
    ensures Armed(DoWrite(c, id, vectors, dontblock, call))
  {
  }

  lemma {:induction false} ResumeArmed(c: Conn, call: WriteCall, r: CloseReply)
    requires Armed(c) && r.err in {Ok, Mem}
    ensures Armed(Resume(c, call, r))
  {
    CloseArmed(c, c.current, true, r);
  }

  ghost predicate Armed(c: Conn) {
    c.pcb.Some? && !c.pcb.value.listening ==> c.pcb.value.errf && c.pcb.value.poll && c.pcb.value.arg
  }

  lemma {:induction false} CloseArmed(c: Conn, m: Option<Msg>, delayed: bool, r: CloseReply)
    requires Armed(c) && r.err in {Ok, Mem}
    ensures Armed(DoCloseInternal(c.(current := m, state := StClose), delayed, r).c)
  {
  }

  lemma {:induction false} ConnectArmed(c: Conn, id: nat, tcp: Err)
    requires Armed(c)
    ensures Armed(DoConnect(c, id, tcp))
  {
  }

  /** Conservation over every interleaving: while a write is outstanding TCP has taken exactly
      the first `offset` bytes, and when it ended it reports what TCP took. */
  lemma {:induction false} WritesConserved(nonblocking: bool, es: seq<Event>)
    requires RunOk(NewConn(nonblocking), es)
    ensures var c := Run(NewConn(nonblocking), es);
            && (c.state == StWrite ==>
                  && c.current.Some? && c.current.value.op.Writing?
                  && c.current.value.op.w.offset < |Flatten(c.current.value.op.w.vectors)|
                  && c.took == Flatten(c.current.value.op.w.vectors)[..c.current.value.op.w.offset])
            && forall id | id in c.ledger.outcome :: OutcomeInv(c.ledger.outcome[id])
  {
    ProtocolSafe(nonblocking, es);
  }

  // ------------------------------------------------------------------ waking up

  /** A message is not left outstanding while the token of an earlier caller, who has not
      returned yet, is still in the netconn's semaphore. */
  ghost predicate NoOverlap(c: Conn, e: Event) {
    IsMessage(e) && CurrentId(Step(c, e)) == Some(e.id) ==> c.ledger.tokens == 0
  }

  ghost predicate NoOverlapRun(c: Conn, es: seq<Event>)
    decreases |es|
  {
    es == [] || (NoOverlap(c, es[0]) && NoOverlapRun(Step(c, es[0]), es[1..]))
  }

  /** Whichever thread takes the semaphore now finds its own result. */
  ghost predicate SafeToWake(c: Conn) {
    forall id | StepOk(c, EvWake(id)) :: id in c.ledger.outcome
  }

  ghost predicate AlwaysSafeToWake(c: Conn, es: seq<Event>)
    decreases |es|
  {
    SafeToWake(c) && (es == [] || AlwaysSafeToWake(Step(c, es[0]), es[1..]))
  }

  /** At most one thread sleeps, and there is a token exactly when it has its result. */
  ghost predicate WakeInv(c: Conn) {
    var l := c.ledger;
    match c.current
    case Some(m) => l.asleep == {m.id} && l.tokens == 0
    case None =>
      || (l.asleep == {} && l.tokens == 0)
      || (l.tokens == 1 && exists id :: l.asleep == {id} && id in l.outcome)
  }

  lemma {:induction false} WakeFollows(c: Conn, id: nat)
    requires WakeInv(c) && StepOk(c, EvWake(id))
    ensures id in c.ledger.outcome && WakeInv(Wake(c, id))
  {
    assert c.current.None?;
    var x :| c.ledger.asleep == {x} && x in c.ledger.outcome;
    assert id == x;
    assert c.ledger.asleep - {id} == {};
  }

  lemma {:induction false} MessageDeltaWakes(c: Conn, d: Conn, id: nat)
    requires WakeInv(c) && MessageDelta(c, d, id) && (CurrentId(d) == Some(id) ==> c.ledger.tokens == 0)
    requires LedgerInv(c.ledger, CurrentId(c)) && Fresh(c, id)
    ensures WakeInv(d)
  {
    if c.ledger.tokens == 1 {
      var x :| c.ledger.asleep == {x} && x in c.ledger.outcome;
      assert d.ledger.asleep == {x};
    }
  }

  lemma {:induction false} CallbackDeltaWakes(c: Conn, d: Conn)
    requires WakeInv(c) && CallbackDelta(c, d)
    ensures WakeInv(d)
  {
    if d.ledger == c.ledger && c.current.None? && c.ledger.tokens == 1 {
      var id :| c.ledger.asleep == {id} && id in c.ledger.outcome;
    }
  }

  lemma {:induction false} StepWakes(c: Conn, e: Event)
    requires Inv(c) && WakeInv(c) && StepOk(c, e) && NoOverlap(c, e)
    ensures WakeInv(Step(c, e))
  {
    if e.EvWake? {
      WakeFollows(c, e.id);
    } else if IsMessage(e) {
      MessageKeeps(c, e);
      MessageDeltaWakes(c, Step(c, e), e.id);
    } else {
      CallbackKeeps(c, e);
      CallbackDeltaWakes(c, Step(c, e));
    }
  }

  lemma {:induction false} NoOverlapWakes(c: Conn, es: seq<Event>)
    requires Inv(c) && WakeInv(c) && RunOk(c, es) && NoOverlapRun(c, es)
    ensures AlwaysSafeToWake(c, es) && WakeInv(Run(c, es))
    decreases |es|
  {
    forall id | StepOk(c, EvWake(id)) ensures id in c.ledger.outcome {
      WakeFollows(c, id);
    }
    if es != [] {
      StepKeeps(c, es[0]);
      StepWakes(c, es[0]);
      NoOverlapWakes(Step(c, es[0]), es[1..]);
    }
  }

  /** After an overlap the later caller can take the earlier one's token. */
  lemma {:induction false} OverlapMixesUp(c: Conn, e: Event)
    requires Inv(c) && StepOk(c, e) && !NoOverlap(c, e)
    ensures StepOk(Step(c, e), EvWake(e.id)) && e.id !in Step(c, e).ledger.outcome
  {
    MessageKeeps(c, e);
    MessageDeltaKeeps(c, Step(c, e), e.id);
  }

  lemma {:induction false} SafeRunsDoNotOverlap(c: Conn, es: seq<Event>)
    requires Inv(c) && RunOk(c, es) && AlwaysSafeToWake(c, es)
    ensures NoOverlapRun(c, es)
    decreases |es|
  {
    if es != [] {
      if !NoOverlap(c, es[0]) {
        OverlapMixesUp(c, es[0]);
      }
      StepKeeps(c, es[0]);
      SafeRunsDoNotOverlap(Step(c, es[0]), es[1..]);
    }
  }

  /** In every run: each thread that can take the semaphore, at any point, finds its own result
      if and only if no message was left outstanding while a token was in the semaphore. */
  lemma {:induction false} WakesFindResultsIff(nonblocking: bool, es: seq<Event>)
    requires RunOk(NewConn(nonblocking), es)
    ensures AlwaysSafeToWake(NewConn(nonblocking), es) <==> NoOverlapRun(NewConn(nonblocking), es)
    ensures var l := Run(NewConn(nonblocking), es).ledger;
            NoOverlapRun(NewConn(nonblocking), es) ==> l.tokens <= |l.asleep| <= 1
  {
    var c := NewConn(nonblocking);
    if NoOverlapRun(c, es) {
      NoOverlapWakes(c, es);
      var d := Run(c, es);
      if d.current.None? && d.ledger.tokens == 1 {
        var id :| d.ledger.asleep == {id} && id in d.ledger.outcome;
      }
    } else if AlwaysSafeToWake(c, es) {
      SafeRunsDoNotOverlap(c, es);
    }
  }

  /** No message at all is handled between the signal and the return of a waiting caller, as
      main_page.h:337-340 asks of threads that share a netconn. */
  ghost predicate Serial(c: Conn, e: Event) {
    IsMessage(e) ==> c.ledger.tokens == 0
  }

  ghost predicate SerialRun(c: Conn, es: seq<Event>)
    decreases |es|
  {
    es == [] || (Serial(c, es[0]) && SerialRun(Step(c, es[0]), es[1..]))
  }

  /** The asserts after `sys_arch_sem_wait` returns (lines 1182, 1396, 1836 and 1990). */
  ghost predicate WakeAsserts(c: Conn, e: Event) { e.EvWake? ==> c.state == StNone }

  ghost predicate WakeAssertsRun(c: Conn, es: seq<Event>)
    decreases |es|
  {
    es == [] || (WakeAsserts(c, es[0]) && WakeAssertsRun(Step(c, es[0]), es[1..]))
  }

  lemma {:induction false} SerialStep(c: Conn, e: Event)
    requires Inv(c) && StepOk(c, e) && Serial(c, e) && (c.ledger.tokens > 0 ==> c.state == StNone)
    ensures WakeAsserts(c, e)
    ensures Step(c, e).ledger.tokens > 0 ==> Step(c, e).state == StNone
  {
    if IsMessage(e) {
      MessageKeeps(c, e);
    } else if !e.EvWake? {
      CallbackKeeps(c, e);
    }
  }

  lemma {:induction false} SerialRunAsserts(c: Conn, es: seq<Event>)
    requires Inv(c) && RunOk(c, es) && SerialRun(c, es) && (c.ledger.tokens > 0 ==> c.state == StNone)
    ensures WakeAssertsRun(c, es) && NoOverlapRun(c, es)
    decreases |es|
  {
    if es != [] {
      SerialStep(c, es[0]);
      StepKeeps(c, es[0]);
      SerialRunAsserts(Step(c, es[0]), es[1..]);
    }
  }

  /** In a serial run every thread that wakes up finds the netconn idle, as the code asserts,
      and its own result. */
  lemma {:induction false} SerialRunsWake(nonblocking: bool, es: seq<Event>)
    requires RunOk(NewConn(nonblocking), es) && SerialRun(NewConn(nonblocking), es)
    ensures WakeAssertsRun(NewConn(nonblocking), es) && AlwaysSafeToWake(NewConn(nonblocking), es)
  {
    SerialRunAsserts(NewConn(nonblocking), es);
    WakesFindResultsIff(nonblocking, es);
  }

  lemma {:induction false} RunOne(c: Conn, e: Event, es: seq<Event>)
    ensures RunOk(c, [e] + es) <==> StepOk(c, e) && RunOk(Step(c, e), es)
    ensures Run(c, [e] + es) == Run(Step(c, e), es)
  {
    assert ([e] + es)[1..] == es;
  }

  /** Such a run: one thread's write is finished by `sent_tcp`, and another thread's write is
      left outstanding before the first thread returns; then the second thread can return
      although its write has no result. */
  lemma {:induction false} TwoWritersMixUp(full: WriteCall, room: WriteCall, r: CloseReply)
    requires full.replies(0) == Reply(0, Ok) && full.n == 1 && full.output == Ok
    requires room.replies(0) == Reply(1, Ok) && room.n == 1 && room.output == Ok
    ensures var es := [EvWrite(0, [[7]], false, full), EvSent(room, r), EvWrite(1, [[7]], false, full)];
            var c := Run(NewConn(false), es);
            && RunOk(NewConn(false), es)
            && StepOk(c, EvWake(1)) && 1 !in c.ledger.outcome && 0 in c.ledger.outcome
            && 1 !in Wake(c, 1).ledger.asleep && 0 in Wake(c, 1).ledger.asleep && Wake(c, 1).ledger.tokens == 0
  {
    var c0, e0, e1 := NewConn(false), EvWrite(0, [[7]], false, full), EvSent(room, r);
    var e2 := EvWrite(1, [[7]], false, full);
    OneByteWaits(c0, 0, full);
    var c1 := Step(c0, e0);
    OneByteGoes(c1, 0, room);
    var c2 := Step(c1, e1);
    OneByteWaits(c2, 1, full);
    RunThree(c0, e0, e1, e2);
  }

  lemma {:induction false} RunThree(c: Conn, e0: Event, e1: Event, e2: Event)
    ensures var c1 := Step(c, e0);
            var c2 := Step(c1, e1);
            && (RunOk(c, [e0, e1, e2]) <==> StepOk(c, e0) && StepOk(c1, e1) && StepOk(c2, e2))
            && Run(c, [e0, e1, e2]) == Step(c2, e2)
  {
    var c1 := Step(c, e0);
    var c2 := Step(c1, e1);
    RunOne(c2, e2, []);
    RunOne(c1, e1, [e2]);
    RunOne(c, e0, [e1, e2]);
    assert [e0] + [e1, e2] == [e0, e1, e2] && [e1] + [e2] == [e1, e2] && [e2] + [] == [e2];
  }

  lemma {:induction false} OneByte()
    ensures Flatten([[7 as byte]]) == [7]
  {
    assert Flatten([[7 as byte]]) == [7] + Flatten<byte>([]);
  }

  lemma {:induction false} OneByteWaits(c: Conn, id: nat, full: WriteCall)
    requires c.state == StNone && c.pcb.Some? && c.pendingErr == Ok && !c.nonblocking && Fresh(c, id)
    requires full.replies(0) == Reply(0, Ok) && full.n == 1 && full.output == Ok
    ensures StepOk(c, EvWrite(id, [[7]], false, full))
    ensures var d := DoWrite(c, id, [[7]], false, full);
            && d.state == StWrite && d.current == Some(Msg(id, Writing(Start([[7]], 1), false)))
            && d.ledger == Sleep(c.ledger, id) && d.pcb == c.pcb && d.pendingErr == Ok && !d.nonblocking
  {
    OneByte();
    assert NetconnWrite.Run(Start([[7]], 1), false, full.replies, 0, 1) == Done(Start([[7]], 1), [], Ok);
  }

  lemma {:induction false} OneByteGoes(c: Conn, id: nat, room: WriteCall)
    requires c.state == StWrite && c.current == Some(Msg(id, Writing(Start([[7]], 1), false)))
    requires room.replies(0) == Reply(1, Ok) && room.n == 1 && room.output == Ok
    ensures Returns(c, room)
    ensures var d := DoWritemore(c, true, room).c;
            && d.state == StNone && d.pcb == c.pcb && d.pendingErr == c.pendingErr && d.nonblocking == c.nonblocking
            && d.ledger.tokens == c.ledger.tokens + 1 && d.ledger.asleep == c.ledger.asleep
            && d.ledger.waited == c.ledger.waited && d.ledger.outcome.Keys == c.ledger.outcome.Keys + {id}
  {
    var w := Start([[7]], 1);
    assert NetconnWrite.Run(w, false, room.replies, 0, 1) == Done(w.(off := 1, offset := 1, cnt := 0), [7], Ok);
  }

  // ------------------------------------------------------------------ bounded close

  const CLOSE_TIMEOUT_MS := 20000
  const TCP_SLOW_INTERVAL := 500

  /** `polls_left` as set by `netconn_close_shutdown` and `netconn_prepare_delete`. */
  const CLOSE_POLLS: nat := (CLOSE_TIMEOUT_MS + TCP_SLOW_INTERVAL - 1) / TCP_SLOW_INTERVAL + 1

  function Polls(es: seq<Event>): nat {
    if es == [] then 0 else (if es[0].EvPoll? then 1 else 0) + Polls(es[1..])
  }

  /** The outstanding close after one more event: finished for good, or the same message
      with one poll less if the event was one. */
  ghost predicate CloseGoesOn(c: Conn, d: Conn, poll: bool)
    requires c.current.Some? && c.current.value.op.Closing?
  {
    || c.current.value.id in d.ledger.outcome
    || (d.state == StClose && d.current.Some? && d.current.value.id == c.current.value.id
        && d.current.value.op.Closing? && d.current.value.op.pollsLeft > 0
        && d.current.value.op.pollsLeft == c.current.value.op.pollsLeft - (if poll then 1 else 0))
  }

  lemma {:induction false} CloseMeetsCallback(c: Conn, e: Event)
    requires CoreInv(c) && StepOk(c, e) && c.state == StClose && !IsMessage(e)
    ensures CloseGoesOn(c, Step(c, e), e.EvPoll?)
  {
  }

  lemma {:induction false} CloseMeetsMessage(c: Conn, e: Event)
    requires CoreInv(c) && StepOk(c, e) && c.state == StClose && IsMessage(e)
    ensures CloseGoesOn(c, Step(c, e), false)
  {
  }

  lemma {:induction false} OutcomeStays(c: Conn, e: Event, id: nat)
    requires Inv(c) && StepOk(c, e) && id in c.ledger.outcome
    ensures id in Step(c, e).ledger.outcome
  {
    if IsMessage(e) {
      MessageKeeps(c, e);
    } else if !e.EvWake? {
      CallbackKeeps(c, e);
    }
  }

  lemma {:induction false} OutcomeStaysInRun(c: Conn, es: seq<Event>, id: nat)
    requires Inv(c) && RunOk(c, es) && id in c.ledger.outcome
    ensures id in Run(c, es).ledger.outcome
    decreases |es|
  {
    if es != [] {
      OutcomeStays(c, es[0], id);
      StepKeeps(c, es[0]);
      OutcomeStaysInRun(Step(c, es[0]), es[1..], id);
    }
  }

  /** An outstanding close ends within its `polls_left` polls, whatever TCP answers and
      whatever else happens. */
  lemma {:induction false} CloseIsBounded(c: Conn, es: seq<Event>)
    requires Inv(c) && c.state == StClose && RunOk(c, es)
    requires Polls(es) >= c.current.value.op.pollsLeft
    ensures c.current.value.id in Run(c, es).ledger.outcome
    decreases |es|
  {
    assert es != [];
    if IsMessage(es[0]) {
      CloseMeetsMessage(c, es[0]);
    } else {
      CloseMeetsCallback(c, es[0]);
    }
    StepKeeps(c, es[0]);
    var d := Step(c, es[0]);
    if c.current.value.id in d.ledger.outcome {
      OutcomeStaysInRun(d, es[1..], c.current.value.id);
    } else {
      CloseIsBounded(d, es[1..]);
    }
  }

  // ------------------------------------------------------------------ why a call ends

  predicate Idle(c: Conn) { c.pcb.Some? && c.state == StNone }

  /** A connect: refused, started without waiting, or ended by the callback that tells how it
      went. */
  ghost predicate ConnectEnds(c: Conn, e: Event, err: Err) {
    || ((e.EvConnected? || e.EvErr?) && c.state == StConnect && err == e.err)
    || (e.EvConnect? && c.pcb.None? && err == Clsd)
    || (e.EvConnect? && c.pcb.Some? && c.state == StConnect && err == Already)
    || (e.EvConnect? && c.pcb.Some? && c.state in {StWrite, StListen, StClose} && err == IsConn)
    || (e.EvConnect? && Idle(c) && e.tcp != Ok && err == e.tcp)
    || (e.EvConnect? && Idle(c) && e.tcp == Ok && c.nonblocking && err == InProgress)
  }

  ghost predicate TcpSaid(call: WriteCall, err: Err) { exists j | 0 <= j < call.n :: call.replies(j).err == err }

  /** The error of a write that a call of `lwip_netconn_do_writemore` ended: one that `tcp_write`
      gave, other than ERR_MEM, or ERR_RTE of `tcp_output`. */
  ghost predicate CallGives(call: WriteCall, err: Err) {
    && (err == Ok ==> call.output != Rte)
    && (err == Rte ==> call.output == Rte || TcpSaid(call, Rte))
    && (err !in {Ok, WouldBlock, Rte} ==> err != Mem && TcpSaid(call, err))
  }

  /** The request of an outstanding write. */
  function Requested(c: Conn): Option<Request> {
    if c.current.Some? && c.current.value.op.Writing?
    then Some(Request(c.current.value.op.w.vectors, c.current.value.op.dontblock)) else None
  }

  /** A write: refused, ended by the connection's error, or by a call that could go on. */
  ghost predicate WriteEnds(c: Conn, e: Event, o: Outcome) {
    || (e.EvErr? && c.state == StWrite && o.err == e.err && o.request == Requested(c))
    || (e.EvWrite? && c.pendingErr != Ok && o.err == c.pendingErr && o.request.None?)
    || (e.EvWrite? && c.pendingErr == Ok && c.state != StNone && o.err == InProgress && o.request.None?)
    || (e.EvWrite? && c.pendingErr == Ok && c.state == StNone && c.pcb.None? && o.err == NotConn && o.request.None?)
    || (e.EvWrite? && c.pendingErr == Ok && Idle(c) && CallGives(e.call, o.err)
        && o.request == Some(Request(e.vectors, c.nonblocking || e.dontblock)))
    || ((e.EvSent? || e.EvPoll?) && c.state == StWrite && CallGives(e.call, o.err) && o.request == Requested(c))
  }

  /** Afterwards neither direction is open: each is shut down now or was before. */
  predicate ShutsBoth(rx: bool, tx: bool, r: CloseReply) { (rx || r.rxClosed) && (tx || r.finWait) }

  /** How an attempt to close ends: ERR_MEM only when no poll is left, and then as success if the
      connection can be aborted; any other answer at once. */
  predicate AttemptEnds(rx: bool, tx: bool, polls: int, r: CloseReply, err: Err) {
    if r.err == Mem then polls == 0 && err == (if ShutsBoth(rx, tx, r) then Ok else Mem) else err == r.err
  }

  /** The polls that are left when an event tries an outstanding close again. */
  function PollsAt(c: Conn, e: Event): int
    requires c.current.Some? && c.current.value.op.Closing?
  {
    c.current.value.op.pollsLeft - if e.EvPoll? then 1 else 0
  }

  /** A close or delete: refused, nothing to do, or an attempt; or the connection is gone anyway. */
  ghost predicate CloseEnds(c: Conn, e: Event, err: Err) {
    || (e.EvErr? && c.state == StClose && err == Ok)
    || ((e.EvSent? || e.EvPoll?) && c.state == StClose && c.current.Some? && c.current.value.op.Closing?
        && AttemptEnds(c.current.value.op.rx, c.current.value.op.tx, PollsAt(c, e), e.r, err))
    || (e.EvClose? && err == NotConn
        && (c.pcb.None? || c.state == StConnect || (c.state == StListen && !(e.rx && e.tx))))
    || (e.EvClose? && c.pcb.Some? && c.state == StWrite && err == InProgress)
    || (e.EvClose? && c.pcb.Some? && c.state in {StNone, StListen} && AttemptEnds(e.rx, e.tx, e.polls, e.r, err))
    || (e.EvDelete? && (c.state in {StWrite, StClose} || (c.state == StConnect && !c.inNbConnect)) && err == InProgress)
    || (e.EvDelete? && c.current.None? && c.pcb.None? && err == Ok)
    || (e.EvDelete? && c.current.None? && c.pcb.Some? && AttemptEnds(true, true, e.polls, e.r, err))
  }

  ghost predicate ListenEnds(c: Conn, e: Event, err: Err) {
    e.EvListen? &&
      if c.pcb.None? || c.state in {StWrite, StConnect, StClose} then err == NotConn
      else if c.state == StListen then err == Ok
      else match e.lr
        case PcbInUse => err == Val
        case NoListenPcb(code) => err == code
        case NoAcceptMbox(code) => err == code
        case Listening => err == Ok
  }

  /** Event `e` in state `c` gives call `id` the result `o`. */
  ghost predicate Explains(c: Conn, e: Event, id: nat, o: Outcome) {
    && (if IsMessage(e) then e.id == id else CurrentId(c) == Some(id))
    && match o.kind
       case ToConnect => ConnectEnds(c, e, o.err)
       case ToWrite => WriteEnds(c, e, o)
       case ToClose => CloseEnds(c, e, o.err)
       case ToListen => ListenEnds(c, e, o.err)
  }

  /** If the event gives this call a result, the result is explained. */
  ghost predicate ExplainedStep(c: Conn, e: Event, id: nat) {
    var d := Step(c, e);
    id !in c.ledger.outcome && id in d.ledger.outcome ==> Explains(c, e, id, d.ledger.outcome[id])
  }

  lemma {:induction false} CallGivesError(w: Cursor, db: bool, call: WriteCall)
    requires Ready(w) && NetconnWrite.Run(w, db, call.replies, 0, call.n).Done?
    ensures var l := NetconnWrite.Run(w, db, call.replies, 0, call.n);
            var v := Conclude(l.c, db, l.err, call.output);
            v.finished ==> CallGives(call, v.err)
  {
    RunRefused(w, db, call.replies, 0, call.n);
    var l := NetconnWrite.Run(w, db, call.replies, 0, call.n);
    LoopGives(db, l, call);
  }

  lemma {:induction false} LoopGives(db: bool, l: Loop, call: WriteCall)
    requires l.Done? && (l.err !in {Ok, WouldBlock} ==> TcpSaid(call, l.err))
    ensures var v := Conclude(l.c, db, l.err, call.output); v.finished ==> CallGives(call, v.err)
  {
  }

  lemma {:induction false} WriteExplained(c: Conn, e: Event)
    requires CoreInv(c) && StepOk(c, e) && e.EvWrite?
    ensures ExplainedStep(c, e, e.id)
  {
    if c.pendingErr == Ok && Idle(c) {
      var db := c.nonblocking || e.dontblock;
      var w := Start(e.vectors, |Flatten(e.vectors)|);
      StartReady(e.vectors);
      CallGivesError(w, db, e.call);
      RunConserves(w, db, e.call.replies, 0, e.call.n);
      var b := BeginWrite(c, e.id, e.vectors, e.dontblock);
      AfterLoopExplained(b, false, WriteLoop(b, e.call), e.call);
    }
  }

  /** What the end of a call of the loop records. */
  lemma {:induction false} AfterLoopExplained(b: Conn, delayed: bool, l: Loop, call: WriteCall)
    requires b.current.Some? && b.current.value.op.Writing? && l.Done? && l.c.vectors == b.current.value.op.w.vectors
    requires b.current.value.id !in b.ledger.outcome
    requires var v := Conclude(l.c, b.current.value.op.dontblock, l.err, call.output);
             v.finished ==> CallGives(call, v.err)
    ensures var m, d := b.current.value, AfterLoop(b, delayed, l, call.output).c;
            m.id in d.ledger.outcome ==>
              && d.ledger.outcome[m.id].kind == ToWrite && CallGives(call, d.ledger.outcome[m.id].err)
              && d.ledger.outcome[m.id].request == Some(Request(m.op.w.vectors, m.op.dontblock))
  {
  }

  lemma {:induction false} WriteResumed(c: Conn, e: Event)
    requires Inv(c) && StepOk(c, e) && (e.EvSent? || e.EvPoll?) && c.state == StWrite
    ensures ExplainedStep(c, e, c.current.value.id)
  {
    var op := c.current.value.op;
    CallGivesError(op.w, op.dontblock, e.call);
    RunConserves(op.w, op.dontblock, e.call.replies, 0, e.call.n);
    AfterLoopExplained(c, true, WriteLoop(c, e.call), e.call);
  }

  lemma {:induction false} CloseResumed(c: Conn, e: Event)
    requires Inv(c) && StepOk(c, e) && (e.EvSent? || e.EvPoll?) && c.state == StClose
    ensures ExplainedStep(c, e, c.current.value.id)
  {
    CloseExplained(if e.EvPoll? then CountPoll(c) else c, true, e.r);
  }

  lemma {:induction false} ResumeExplained(c: Conn, e: Event)
    requires Inv(c) && StepOk(c, e) && (e.EvSent? || e.EvPoll?) && c.current.Some?
    ensures ExplainedStep(c, e, c.current.value.id)
  {
    if c.state == StWrite {
      WriteResumed(c, e);
    } else if c.state == StClose {
      CloseResumed(c, e);
    }
  }

  /** A pcb of which one direction is shut down keeps its callbacks, but has nothing to send any
      more if it is the write side. */
  function HalfShut(p: Pcb, tx: bool): Pcb { if tx then p.(sent := false) else p }

  /** A pcb that the netconn gave up on. */
  function Detached(p: Pcb, tx: bool): Pcb { HalfShut(p, tx).(arg := false, poll := false, errf := false) }

  /** A pcb that is to be closed again later. */
  function Rearmed(p: Pcb, tx: bool): Pcb { p.(arg := true, poll := true, errf := true, sent := tx || p.sent) }

  /** What an attempt to close records, and what becomes of the pcb: it goes exactly when nothing
      stays open, half a shutdown keeps it, and one that could not be closed is given up. */
  ghost predicate Attempted(b: Conn, d: Conn, r: CloseReply)
    requires b.current.Some? && b.current.value.op.Closing? && b.pcb.Some?
  {
    var m := b.current.value;
    var both := ShutsBoth(m.op.rx, m.op.tx, r);
    if m.id in d.ledger.outcome then
      var err := d.ledger.outcome[m.id].err;
      && d.ledger.outcome[m.id].kind == ToClose && AttemptEnds(m.op.rx, m.op.tx, m.op.pollsLeft, r, err)
      && d.pcb == if !both then Some(HalfShut(b.pcb.value, m.op.tx))
                  else if err == Ok then None
                  else Some(Detached(b.pcb.value, m.op.tx))
    else
      && r.err == Mem && m.op.pollsLeft > 0 && d.current == b.current && d.state == b.state
      && d.pcb == Some(Rearmed(b.pcb.value, m.op.tx))
  }

  lemma {:induction false} ShutCloseIff(op: Op, r: CloseReply)
    requires op.Closing? && (op.rx || op.tx)
    ensures ShutClose(op, r) <==> ShutsBoth(op.rx, op.tx, r)
  {
  }

  lemma {:induction false} CloseRetried(b: Conn, delayed: bool, r: CloseReply)
    requires b.current.Some? && b.current.value.op.Closing? && b.pcb.Some? && !b.pcb.value.listening
    requires b.current.value.id !in b.ledger.outcome && r.err == Mem && b.current.value.op.pollsLeft > 0
    ensures Attempted(b, DoCloseInternal(b, delayed, r).c, r)
  {
  }

  lemma {:induction false} CloseEnded(b: Conn, delayed: bool, r: CloseReply, both: bool)
    requires b.current.Some? && b.current.value.op.Closing? && b.pcb.Some? && !b.pcb.value.listening
    requires r.err != Mem || b.current.value.op.pollsLeft == 0
    requires both == ShutClose(b.current.value.op, r)
    ensures var m, d := b.current.value, DoCloseInternal(b, delayed, r).c;
            var err := if r.err == Mem && both then Ok else r.err;
            && m.id in d.ledger.outcome && d.ledger.outcome[m.id] == Failed(ToClose, err)
            && d.pcb == if both && err == Ok then None else Some(Unhook(b.pcb.value, m.op, both))
  {
  }

  lemma {:induction false} CloseExplained(b: Conn, delayed: bool, r: CloseReply)
    requires b.current.Some? && b.current.value.op.Closing? && b.pcb.Some? && !b.pcb.value.listening
    requires (b.current.value.op.rx || b.current.value.op.tx) && b.current.value.id !in b.ledger.outcome
    ensures Attempted(b, DoCloseInternal(b, delayed, r).c, r)
  {
    var op := b.current.value.op;
    if r.err == Mem && op.pollsLeft > 0 {
      CloseRetried(b, delayed, r);
    } else {
      ShutCloseIff(op, r);
      CloseEnded(b, delayed, r, ShutsBoth(op.rx, op.tx, r));
      EndedAttempt(b, DoCloseInternal(b, delayed, r).c, r, ShutsBoth(op.rx, op.tx, r));
    }
  }

  lemma {:induction false} EndedAttempt(b: Conn, d: Conn, r: CloseReply, both: bool)
    requires b.current.Some? && b.current.value.op.Closing? && b.pcb.Some? && !b.pcb.value.listening
    requires var op := b.current.value.op; both == ShutsBoth(op.rx, op.tx, r) && (r.err != Mem || op.pollsLeft == 0)
    requires var m := b.current.value;
             var err := if r.err == Mem && both then Ok else r.err;
             && m.id in d.ledger.outcome && d.ledger.outcome[m.id] == Failed(ToClose, err)
             && d.pcb == if both && err == Ok then None else Some(Unhook(b.pcb.value, m.op, both))
    ensures Attempted(b, d, r)
  {
  }

  lemma {:induction false} ListenerClosed(b: Conn, delayed: bool, r: CloseReply)
    requires b.current.Some? && b.current.value.op.Closing? && b.current.value.op.rx && b.current.value.op.tx
    requires b.pcb.Some? && r.err == Ok && b.current.value.id !in b.ledger.outcome
    ensures Attempted(b, DoCloseInternal(b, delayed, r).c, r)
  {
  }

  lemma {:induction false} StartCloseExplained(c: Conn, id: nat, rx: bool, tx: bool, polls: nat, r: CloseReply)
    requires CoreInv(c) && c.current.None? && c.pcb.Some? && (rx || tx) && id !in c.ledger.outcome
    requires CloseReplyOk(c, r) && (c.pcb.value.listening ==> rx && tx)
    ensures var b := BeginClose(c, id, rx, tx, polls); Attempted(b, DoCloseInternal(b, false, r).c, r)
  {
    var b := BeginClose(c, id, rx, tx, polls);
    if c.pcb.value.listening {
      ListenerClosed(b, false, r);
    } else {
      CloseExplained(b, false, r);
    }
  }

  lemma {:induction false} CloseMessageExplained(c: Conn, e: Event)
    requires CoreInv(c) && StepOk(c, e) && e.EvClose?
    ensures ExplainedStep(c, e, e.id)
  {
    if c.pcb.Some? && c.state in {StNone, StListen} && (c.state == StListen ==> e.rx && e.tx) {
      StartCloseExplained(c, e.id, e.rx, e.tx, e.polls, e.r);
    }
  }

  lemma {:induction false} DeleteExplained(c: Conn, e: Event)
    requires CoreInv(c) && StepOk(c, e) && e.EvDelete?
    ensures ExplainedStep(c, e, e.id)
  {
    if c.current.None? && c.pcb.Some? {
      StartCloseExplained(c, e.id, true, true, e.polls, e.r);
    }
  }

  lemma {:induction false} MessageExplained(c: Conn, e: Event)
    requires CoreInv(c) && (e.EvConnect? || e.EvListen?)
    ensures ExplainedStep(c, e, e.id)
  {
  }

  lemma {:induction false} CallbackExplained(c: Conn, e: Event, id: nat)
    requires CoreInv(c) && StepOk(c, e) && (e.EvConnected? || e.EvErr? || e.EvWake?)
    ensures ExplainedStep(c, e, id)
  {
  }

  /** A message gives a result to no other call, and a callback only to the outstanding one. */
  lemma {:induction false} OthersUntouched(c: Conn, e: Event, id: nat)
    requires Inv(c) && StepOk(c, e) && id in Step(c, e).ledger.outcome
    ensures id in c.ledger.outcome || (if IsMessage(e) then e.id == id else CurrentId(c) == Some(id))
    ensures id in c.ledger.outcome ==> Step(c, e).ledger.outcome[id] == c.ledger.outcome[id]
  {
    if IsMessage(e) {
      MessageKeeps(c, e);
    } else if !e.EvWake? {
      CallbackKeeps(c, e);
    }
  }

  lemma {:induction false} StepExplains(c: Conn, e: Event, id: nat)
    requires Inv(c) && StepOk(c, e)
    ensures ExplainedStep(c, e, id)
  {
    if id !in c.ledger.outcome && id in Step(c, e).ledger.outcome {
      OthersUntouched(c, e, id);
      if e.EvWrite? {
        WriteExplained(c, e);
      } else if e.EvClose? {
        CloseMessageExplained(c, e);
      } else if e.EvDelete? {
        DeleteExplained(c, e);
      } else if e.EvSent? || e.EvPoll? {
        ResumeExplained(c, e);
      } else if IsMessage(e) {
        MessageExplained(c, e);
      } else {
        CallbackExplained(c, e, id);
      }
    }
  }

  /** Some event of the run gives call `id` the result `o`. */
  ghost predicate ExplainedIn(c: Conn, es: seq<Event>, id: nat, o: Outcome)
    decreases |es|
  {
    es != [] && (Explains(c, es[0], id, o) || ExplainedIn(Step(c, es[0]), es[1..], id, o))
  }

  lemma {:induction false} RunExplains(c: Conn, es: seq<Event>, id: nat)
    requires Inv(c) && RunOk(c, es) && id !in c.ledger.outcome && id in Run(c, es).ledger.outcome
    ensures ExplainedIn(c, es, id, Run(c, es).ledger.outcome[id])
    decreases |es|
  {
    StepKeeps(c, es[0]);
    var d := Step(c, es[0]);
    if id in d.ledger.outcome {
      StepExplains(c, es[0], id);
      OutcomeFixed(d, es[1..], id);
    } else {
      RunExplains(d, es[1..], id);
    }
  }

  lemma {:induction false} OutcomeFixed(c: Conn, es: seq<Event>, id: nat)
    requires Inv(c) && RunOk(c, es) && id in c.ledger.outcome
    ensures id in Run(c, es).ledger.outcome && Run(c, es).ledger.outcome[id] == c.ledger.outcome[id]
    decreases |es|
  {
    if es != [] {
      OutcomeStays(c, es[0], id);
      OthersUntouched(c, es[0], id);
      StepKeeps(c, es[0]);
      OutcomeFixed(Step(c, es[0]), es[1..], id);
    }
  }

  /** In every run every result of a call has a cause in the run that accounts for its error. */
  lemma {:induction false} ResultsExplained(nonblocking: bool, es: seq<Event>, id: nat)
    requires RunOk(NewConn(nonblocking), es) && id in Run(NewConn(nonblocking), es).ledger.outcome
    ensures ExplainedIn(NewConn(nonblocking), es, id, Run(NewConn(nonblocking), es).ledger.outcome[id])
  {
    RunExplains(NewConn(nonblocking), es, id);
  }

  /** TCP reported the connection established while call `id` waited for it. */
  ghost predicate Established(c: Conn, es: seq<Event>, id: nat)
    decreases |es|
  {
    es != [] && ((es[0] == EvConnected(Ok) && CurrentId(c) == Some(id)) || Established(Step(c, es[0]), es[1..], id))
  }

  lemma {:induction false} ExplainedOk(c: Conn, es: seq<Event>, id: nat, o: Outcome)
    requires RunOk(c, es) && ExplainedIn(c, es, id, o) && o.kind == ToConnect && o.err == Ok
    ensures Established(c, es, id)
    decreases |es|
  {
    if !Explains(c, es[0], id, o) {
      ExplainedOk(Step(c, es[0]), es[1..], id, o);
    }
  }

  /** A connect reports ERR_OK only if the connection was established while it waited. */
  lemma {:induction false} ConnectOkMeansConnected(nonblocking: bool, es: seq<Event>, id: nat)
    requires RunOk(NewConn(nonblocking), es) && id in Run(NewConn(nonblocking), es).ledger.outcome
    ensures var o := Run(NewConn(nonblocking), es).ledger.outcome[id];
            o.kind == ToConnect && o.err == Ok ==> Established(NewConn(nonblocking), es, id)
  {
    var o := Run(NewConn(nonblocking), es).ledger.outcome[id];
    if o.kind == ToConnect && o.err == Ok {
      ResultsExplained(nonblocking, es, id);
      ExplainedOk(NewConn(nonblocking), es, id, o);
    }
  }

  // ------------------------------------------------------------------ when a call ends

  /** When a message waits: a connect that TCP started on a blocking netconn; a write that may
      block and that TCP refused something; a close that TCP had no memory for. */
  ghost predicate WaitsFor(c: Conn, e: Event)
    requires IsMessage(e)
  {
    match e
    case EvConnect(_, tcp) => Idle(c) && tcp == Ok && !c.nonblocking
    case EvWrite(_, _, dontblock, call) =>
      && c.pendingErr == Ok && Idle(c) && !c.nonblocking && !dontblock && call.output != Rte
      && exists j | 0 <= j < call.n :: Refuses(call.replies(j))
    case EvClose(_, rx, tx, _, r) => c.pcb.Some? && c.state in {StNone, StListen} && r.err == Mem
    case EvDelete(_, _, r) => c.pcb.Some? && c.current.None? && r.err == Mem
    case EvListen(_, _) => false
  }

  lemma {:induction false} WriteWaitsOnly(c: Conn, e: Event)
    requires CoreInv(c) && StepOk(c, e) && e.EvWrite? && e.id in Step(c, e).ledger.waited
    ensures WaitsFor(c, e)
  {
    assert c.pendingErr == Ok && Idle(c);
    var db := c.nonblocking || e.dontblock;
    var w := Start(e.vectors, |Flatten(e.vectors)|);
    StartReady(e.vectors);
    UnfinishedHasMore(w, db, e.call.replies, e.call.n, e.call.output);
    RunRefused(w, db, e.call.replies, 0, e.call.n);
    var l := NetconnWrite.Run(w, db, e.call.replies, 0, e.call.n);
    assert !Conclude(l.c, db, l.err, e.call.output).finished;
    ConcludeIff(l.c, db, l.err, e.call.output);
  }

  /** A write waits if and only if it may and the loop stopped before the end with nothing worse
      than ERR_MEM. */
  lemma {:induction false} WriteWaitsIff(c: Conn, e: Event)
    requires CoreInv(c) && StepOk(c, e) && e.EvWrite?
    ensures var w := Start(e.vectors, |Flatten(e.vectors)|);
            var l := NetconnWrite.Run(w, c.nonblocking || e.dontblock, e.call.replies, 0, e.call.n);
            e.id in Step(c, e).ledger.waited
            <==> && c.pendingErr == Ok && Idle(c) && !c.nonblocking && !e.dontblock && e.call.output != Rte
                 && l.err in {Ok, Mem} && l.c.offset < |Flatten(e.vectors)|
  {
    if c.pendingErr == Ok && Idle(c) {
      var db := c.nonblocking || e.dontblock;
      var w := Start(e.vectors, |Flatten(e.vectors)|);
      StartReady(e.vectors);
      UnfinishedIff(w, db, e.call.replies, e.call.n, e.call.output);
      var l := NetconnWrite.Run(w, db, e.call.replies, 0, e.call.n);
      WaitsUnlessFinished(BeginWrite(c, e.id, e.vectors, e.dontblock), l, e.call.output, e.id);
    }
  }

  lemma {:induction false} WaitsUnlessFinished(b: Conn, l: Loop, output: Err, id: nat)
    requires b.current.Some? && b.current.value.op.Writing? && l.Done? && id !in b.ledger.waited
    ensures id in WaitOn(AfterLoop(b, false, l, output), id).ledger.waited
       <==> !Conclude(l.c, b.current.value.op.dontblock, l.err, output).finished
  {
  }

  /** A message waits only then, and a connect, close or delete does so exactly then. */
  lemma {:induction false} MessageWaits(c: Conn, e: Event)
    requires CoreInv(c) && StepOk(c, e) && IsMessage(e)
    ensures e.id in Step(c, e).ledger.waited ==> WaitsFor(c, e)
    ensures WaitsFor(c, e) && !e.EvWrite? ==> e.id in Step(c, e).ledger.waited
  {
    if e.EvWrite? && e.id in Step(c, e).ledger.waited {
      WriteWaitsOnly(c, e);
    }
  }

  /** On a nonblocking netconn nothing but a close is ever outstanding. */
  lemma {:induction false} NonblockingNeverWaits(es: seq<Event>)
    requires RunOk(NewConn(true), es)
    ensures var c := Run(NewConn(true), es); c.current.Some? ==> c.current.value.op.Closing?
  {
    RunKeeps(NewConn(true), es);
    ModeStays(NewConn(true), es);
  }

  lemma {:induction false} ModeStays(c: Conn, es: seq<Event>)
    ensures Run(c, es).nonblocking == c.nonblocking
    decreases |es|
  {
    if es != [] {
      StepMode(c, es[0]);
      ModeStays(Step(c, es[0]), es[1..]);
    }
  }

  lemma {:induction false} WritemoreMode(c: Conn, delayed: bool, call: WriteCall)
    ensures DoWritemore(c, delayed, call).c.nonblocking == c.nonblocking
  {
  }

  lemma {:induction false} CloseMode(c: Conn, delayed: bool, r: CloseReply)
    ensures DoCloseInternal(c, delayed, r).c.nonblocking == c.nonblocking
  {
  }

  lemma {:induction false} ResumeMode(c: Conn, call: WriteCall, r: CloseReply)
    ensures Resume(c, call, r).nonblocking == c.nonblocking
  {
    WritemoreMode(c, true, call);
    CloseMode(c, true, r);
  }

  lemma {:induction false} StepMode(c: Conn, e: Event)
    ensures Step(c, e).nonblocking == c.nonblocking
  {
    match e {
      case EvWrite(id, vectors, dontblock, call) =>
        WritemoreMode(BeginWrite(c.(pendingErr := Ok), id, vectors, dontblock), false, call);
      case EvClose(id, rx, tx, polls, r) => CloseMode(BeginClose(c, id, rx, tx, polls), false, r);
      case EvDelete(id, polls, r) => CloseMode(BeginClose(c, id, true, true, polls), false, r);
      case EvSent(call, r) => ResumeMode(c, call, r);
      case EvPoll(call, r) => ResumeMode(CountPoll(c), call, r);
      case _ =>
    }
  }

  /** What the two callbacks that end an operation leave behind: `err_tcp` no pcb and the error
      pending, `lwip_netconn_do_connected` an idle netconn with its callbacks; an outstanding
      call has its result. */
  lemma {:induction false} CallbacksEnd(c: Conn, e: Event)
    requires Inv(c) && StepOk(c, e) && (e.EvConnected? || e.EvErr?)
    ensures var d := Step(c, e);
            && d.state == StNone && d.current.None? && !d.inNbConnect
            && (c.current.Some? ==> c.current.value.id in d.ledger.outcome)
            && (e.EvErr? ==> d.pcb.None? && d.pendingErr == e.err)
            && (e.EvConnected? ==> d.pcb.Some? && d.pendingErr == c.pendingErr && (e.err == Ok ==> Armed(d)))
  {
  }

  /** What listening does: it reports ERR_OK exactly when the netconn listens afterwards, without
      an accept mailbox the pcb is gone, and otherwise nothing changes. */
  lemma {:induction false} ListenMeans(c: Conn, id: nat, r: ListenReply)
    requires CoreInv(c) && (r.NoListenPcb? || r.NoAcceptMbox? ==> r.err != Ok)
    ensures var d := DoListen(c, id, r);
            && id in d.ledger.outcome && d.ledger.outcome[id].kind == ToListen
            && (d.ledger.outcome[id].err == Ok <==> d.state == StListen)
            && (d.state == StListen ==> d.pcb.Some? && d.pcb.value.listening)
            && (d.state == StListen && c.state == StNone ==> d.pcb.value.arg)
            && (d.pcb.None? <==> c.pcb.None? || (Idle(c) && r.NoAcceptMbox?))
            && (d.state != StListen && d.pcb.Some? ==> d == c.(ledger := d.ledger))
  {
  }

  /** A connect that reaches TCP registers the callbacks again, whatever was there before. */
  lemma {:induction false} ConnectArms(c: Conn, id: nat, tcp: Err)
    requires Idle(c)
    ensures Armed(DoConnect(c, id, tcp)) && DoConnect(c, id, tcp).pcb.value.sent
  {
  }

  /** A `sent` or `poll` callback tries an outstanding close again: it ends unless TCP is out of
      memory and polls are left, and the pcb goes exactly when nothing stays open. */
  lemma {:induction false} CloseTried(c: Conn, e: Event)
    requires Inv(c) && StepOk(c, e) && (e.EvSent? || e.EvPoll?) && c.state == StClose
    ensures var m, d := c.current.value, Step(c, e);
            && (m.id in d.ledger.outcome <==> e.r.err != Mem || PollsAt(c, e) == 0)
            && Attempted(if e.EvPoll? then CountPoll(c) else c, d, e.r)
  {
    CloseExplained(if e.EvPoll? then CountPoll(c) else c, true, e.r);
  }

  /** Both callbacks go on with an outstanding write: it ends, or TCP refused something now. */
  lemma {:induction false} WriteGoesOn(c: Conn, e: Event)
    requires Inv(c) && StepOk(c, e) && (e.EvSent? || e.EvPoll?) && c.state == StWrite
    ensures || c.current.value.id in Step(c, e).ledger.outcome
            || exists j | 0 <= j < e.call.n :: Refuses(e.call.replies(j))
  {
    var op := c.current.value.op;
    OutstandingRefused(op.w, false, e.call.replies, e.call.n, e.call.output);
    var l := WriteLoop(c, e.call);
    if Conclude(l.c, op.dontblock, l.err, e.call.output).finished {
      FinishedHasResult(c, l, e.call.output);
    }
  }

  lemma {:induction false} FinishedHasResult(c: Conn, l: Loop, output: Err)
    requires c.current.Some? && c.current.value.op.Writing? && l.Done?
    requires Conclude(l.c, c.current.value.op.dontblock, l.err, output).finished
    ensures c.current.value.id in AfterLoop(c, true, l, output).c.ledger.outcome
  {
  }

  /** Each of them hands over at once what there is room for. */
  lemma {:induction false} WriteTakesMore(c: Conn, e: Event)
    requires Inv(c) && StepOk(c, e) && (e.EvSent? || e.EvPoll?) && c.state == StWrite
    requires e.call.replies(0).err == Ok
    ensures var w := c.current.value.op.w;
            |Step(c, e).took| >= |c.took| + Min(Left(w, w.at), Min(MAX_U16, e.call.replies(0).sndbuf))
  {
    var op := c.current.value.op;
    assert e.call.n > 0;
    RunTakes(op.w, false, e.call.replies, 0, e.call.n);
  }

  lemma {:induction false} RoomyOutcome(c: Conn, e: Event, id: nat, o: Outcome)
    requires CoreInv(c) && c.state == StWrite && (e.EvSent? || e.EvPoll?)
    requires Explains(c, e, id, o) && OutcomeInv(o) && Roomy(e.call.replies) && e.call.output != Rte
    ensures o.err == Ok && o.written == |Flatten(c.current.value.op.w.vectors)|
  {
    forall err | err != Ok ensures !TcpSaid(e.call, err) {
    }
  }

  /** So with room for everything and a route a write ends with ERR_OK. */
  lemma {:induction false} RoomEndsWrite(c: Conn, e: Event)
    requires Inv(c) && StepOk(c, e) && (e.EvSent? || e.EvPoll?) && c.state == StWrite
    requires Roomy(e.call.replies) && e.call.output != Rte
    ensures var m, d := c.current.value, Step(c, e);
            && m.id in d.ledger.outcome && d.ledger.outcome[m.id].err == Ok
            && d.ledger.outcome[m.id].written == |Flatten(m.op.w.vectors)|
  {
    var id := c.current.value.id;
    WriteGoesOn(c, e);
    StepExplains(c, e, id);
    StepKeeps(c, e);
    RoomyOutcome(c, e, id, Step(c, e).ledger.outcome[id]);
  }

  /** The error that ended a connection is what the next write reports, once. */
  lemma {:induction false} PendingReported(c: Conn, es: seq<Event>, e: Event)
    requires c.pcb.None? && c.pendingErr != Ok && RunOk(c, es) && e.EvWrite?
    requires forall i | 0 <= i < |es| :: !es[i].EvWrite?
    ensures var d := Step(Run(c, es), e);
            && e.id in d.ledger.outcome && d.ledger.outcome[e.id] == Failed(ToWrite, c.pendingErr)
            && d.pendingErr == Ok
    decreases |es|
  {
    if es != [] {
      PendingStays(c, es[0]);
      PendingReported(Step(c, es[0]), es[1..], e);
    }
  }

  lemma {:induction false} PendingStays(c: Conn, e: Event)
    requires c.pcb.None? && StepOk(c, e) && !e.EvWrite?
    ensures Step(c, e).pcb.None? && Step(c, e).pendingErr == c.pendingErr
  {
  }

  /** The close is answered with ERR_MEM whenever it is tried, and TCP reports no error. */
  ghost predicate OutOfMemory(es: seq<Event>) {
    forall i | 0 <= i < |es| :: !es[i].EvErr? && (es[i].EvSent? || es[i].EvPoll? ==> es[i].r.err == Mem)
  }

  /** A close is not given up before its polls are used up: together with `CloseIsBounded` it is
      tried for exactly as many polls as it was given. */
  lemma {:induction false} CloseRetries(c: Conn, es: seq<Event>)
    requires Inv(c) && c.state == StClose && RunOk(c, es) && OutOfMemory(es)
    requires Polls(es) < c.current.value.op.pollsLeft
    ensures var d := Run(c, es);
            && d.state == StClose && d.current.Some? && d.current.value.id == c.current.value.id
            && d.current.value.op.Closing?
            && d.current.value.op.pollsLeft == c.current.value.op.pollsLeft - Polls(es)
    decreases |es|
  {
    if es != [] {
      StillClosing(c, es[0]);
      StepKeeps(c, es[0]);
      CloseRetries(Step(c, es[0]), es[1..]);
    }
  }

  lemma {:induction false} StillClosing(c: Conn, e: Event)
    requires Inv(c) && StepOk(c, e) && c.state == StClose && !e.EvErr?
    requires e.EvSent? || e.EvPoll? ==> e.r.err == Mem && PollsAt(c, e) > 0
    ensures var d := Step(c, e);
            && d.state == StClose && d.current.Some? && d.current.value.id == c.current.value.id
            && d.current.value.op.Closing? && d.current.value.op.pollsLeft == PollsAt(c, e)
  {
    if e.EvSent? || e.EvPoll? {
      CloseTried(c, e);
    }
  }

  // ------------------------------------------------------------------ where it breaks

  /** Deleting a netconn during a nonblocking connect keeps the invariants if and only if
      `tcp_close` succeeds, because the nonblocking-connect flag stays set. */
  lemma {:induction false} DeleteWhileConnectingIff(c: Conn, id: nat, polls: nat, r: CloseReply)
    requires Inv(c) && c.state == StConnect && c.inNbConnect && Fresh(c, id) && polls > 0
    ensures Inv(DoDelconn(c, id, polls, r)) <==> r.err == Ok
  {
    if r.err == Ok {
      ClosePostKeeps(c, id, true, true, polls, r);
      MessageDeltaKeeps(c, DoDelconn(c, id, polls, r), id);
    }
  }

  /** A thread sleeps on a netconn without a pcb whose semaphore has no token. */
  ghost predicate Abandoned(c: Conn, id: nat) {
    c.state == StNone && c.pcb.None? && c.ledger.tokens == 0 && id in c.ledger.asleep
  }

  lemma {:induction false} AbandonedStays(c: Conn, e: Event, id: nat)
    requires Abandoned(c, id) && StepOk(c, e)
    ensures Abandoned(Step(c, e), id)
  {
  }

  lemma {:induction false} AbandonedForever(c: Conn, es: seq<Event>, id: nat)
    requires Abandoned(c, id) && RunOk(c, es)
    ensures Abandoned(Run(c, es), id)
    decreases |es|
  {
    if es != [] {
      AbandonedStays(c, es[0], id);
      AbandonedForever(Step(c, es[0]), es[1..], id);
    }
  }

  lemma {:induction false} DeleteThenReset(c: Conn, r: CloseReply)
    requires r.err == Mem && c.state == StConnect && c.inNbConnect && c.pcb.Some? && !c.pcb.value.listening
    requires c.ledger.tokens == 0
    ensures var d := Step(c, EvDelete(1, CLOSE_POLLS, r));
            && 1 in d.ledger.asleep && StepOk(d, EvErr(Rst)) && Abandoned(Step(d, EvErr(Rst)), 1)
  {
  }

  /** ... and if it answered ERR_MEM, a reset would leave the deleting thread asleep for ever,
      whatever happens later. */
  lemma {:induction false} DeleteWhileConnectingSleepsForever(r: CloseReply, es: seq<Event>)
    requires r.err == Mem
    requires RunOk(Step(Step(Step(NewConn(true), EvConnect(0, Ok)), EvDelete(1, CLOSE_POLLS, r)), EvErr(Rst)), es)
    ensures var c := Step(NewConn(true), EvConnect(0, Ok));
            var d := Step(c, EvDelete(1, CLOSE_POLLS, r));
            var e := Step(d, EvErr(Rst));
            && Inv(c) && 1 in d.ledger.asleep && StepOk(d, EvErr(Rst))
            && 1 in Run(e, es).ledger.asleep && Run(e, es).ledger.tokens == 0
  {
    var c := Step(NewConn(true), EvConnect(0, Ok));
    StepKeeps(NewConn(true), EvConnect(0, Ok));
    DeleteThenReset(c, r);
    AbandonedForever(Step(Step(c, EvDelete(1, CLOSE_POLLS, r)), EvErr(Rst)), es, 1);
  }

  /** A close that is posted while another one is outstanding loses the first caller; a close
      in any other state keeps the ledger. */
  lemma {:induction false} SecondCloseIff(c: Conn, id: nat, rx: bool, tx: bool, polls: nat, r: CloseReply)
    requires Inv(c) && Fresh(c, id) && (rx || tx) && polls > 0 && CloseReplyOk(c, r)
    ensures var d := DoClose(c, id, rx, tx, polls, r);
            LedgerInv(d.ledger, CurrentId(d)) <==> c.state != StClose
  {
    if c.state != StClose {
      CloseKeeps(c, id, rx, tx, polls, r);
      MessageDeltaKeeps(c, DoClose(c, id, rx, tx, polls, r), id);
    } else {
      var d := DoClose(c, id, rx, tx, polls, r);
      assert c.current.value.id in d.ledger.waited && c.current.value.id !in d.ledger.signals;
    }
  }

  // ------------------------------------------------------------------ the code

  /** `struct netconn` of a TCP connection. `took` and `ledger` record history; the handlers
      are written in the order of the C statements. */
  class Netconn {
    var state: State
    var currentMsg: Option<Msg>
    var pcb: Option<Pcb>
    var nonblocking: bool
    var inNbConnect: bool
    var pendingErr: Err
    var took: seq<byte>
    var ledger: Ledger

    ghost function View(): Conn
      reads this
    {
      Conn(state, currentMsg, pcb, nonblocking, inNbConnect, pendingErr, took, ledger)
    }

    /** `netconn_alloc` and `setup_tcp`. */
    constructor (nonblocking: bool)
      ensures View() == NewConn(nonblocking)
    {
      state, currentMsg, pcb := StNone, None, Some(Pcb(false, false, true, true, true, true));
      this.nonblocking, inNbConnect := nonblocking, false;
      pendingErr, took, ledger := Ok, [], Ledger(map[], {}, [], {}, 0);
    }

    method Return(id: nat, kind: Kind, err: Err)
      modifies this`ledger
      ensures ledger == Record(old(ledger), id, Failed(kind, err))
    {
      ledger := ledger.(outcome := ledger.outcome[id := Failed(kind, err)]);
    }

    /** `sys_arch_sem_wait` */
    method Wait(id: nat)
      modifies this`ledger
      ensures ledger == Sleep(old(ledger), id)
    {
      ledger := ledger.(waited := ledger.waited + {id}, asleep := ledger.asleep + {id});
    }

    /** The common end of an outstanding operation: store the error, clear `current_msg` and
        the state, signal the sleeping thread. */
    method Finish(err: Err, delayed: bool)
      requires currentMsg.Some?
      modifies this`currentMsg, this`state, this`ledger
      ensures View() == old(Complete(View(), err, delayed))
    {
      var m := currentMsg.value;
      ledger := Record(ledger, m.id, OutcomeOf(m.op, err, took));
      currentMsg := None;
      state := StNone;
      if delayed {
        ledger := ledger.(signals := ledger.signals + [m.id], tokens := ledger.tokens + 1);
      }
    }

    /** Lines 936-1055: clear callbacks, try to close, decide whether that was the end. */
    static method TryClose(op: Op, pcb: Pcb, r: CloseReply)
      returns (shutClose: bool, tpcb: Pcb, closeFinished: bool, err: Err)
      requires op.Closing?
      ensures shutClose == ShutClose(op, r) && tpcb == Unhook(pcb, op, shutClose)
      ensures closeFinished <==> r.err != Mem || op.pollsLeft == 0
      ensures err == if r.err == Mem && closeFinished && shutClose then Ok else r.err
    {
      tpcb, shutClose := pcb, false;
      if op.rx && op.tx {
        shutClose := true;
      } else if op.rx && r.finWait {
        shutClose := true;
      } else if op.tx && r.rxClosed {
        shutClose := true;
      }
      if shutClose {
        tpcb := tpcb.(arg := false);
      }
      if !tpcb.listening {
        if op.tx {
          tpcb := tpcb.(sent := false);
        }
        if shutClose {
          tpcb := tpcb.(poll := false);
          tpcb := tpcb.(errf := false);
        }
      }
      err := r.err;
      closeFinished := false;
      if err == Ok {
        closeFinished := true;
      } else if err == Mem {
        if op.pollsLeft == 0 {
          closeFinished := true;
          if shutClose {
            err := Ok;  // tcp_abort
          }
        }
      } else {
        closeFinished := true;
      }
    }

    /** `lwip_netconn_do_close_internal`; the preconditions are its LWIP_ASSERTs. */
    method CloseInternal(delayed: bool, r: CloseReply) returns (err: Err)
      requires state == StClose && pcb.Some? && currentMsg.Some? && currentMsg.value.op.Closing?
      modifies this
      ensures Ret(View(), err) == DoCloseInternal(old(View()), delayed, r)
    {
      var op := currentMsg.value.op;
      var shutClose, tpcb, closeFinished;
      shutClose, tpcb, closeFinished, err := TryClose(op, pcb.value, r);
      if closeFinished {
        Finish(err, delayed);
        pcb := if err == Ok && shutClose then None else Some(tpcb);
        return Ok;
      }
      if op.tx {
        tpcb := tpcb.(sent := true);
      }
      tpcb := tpcb.(poll := true, errf := true, arg := true);
      pcb := Some(tpcb);
      assert err != Ok;
    }

    /** Lines 1743-1782. */
    static method Settle(w: Cursor, dontblock: bool, loopErr: Err, output: Err) returns (finished: bool, err: Err)
      ensures Verdict(finished, err) == Conclude(w, dontblock, loopErr, output)
    {
      finished, err := false, loopErr;
      if err == Ok {
        if w.offset == w.len || dontblock {
          finished := true;
        }
        if output == Rte {
          err := Rte;
          finished := true;
        }
      } else if err == Mem {
        if output == Rte {
          err := Rte;
          finished := true;
        } else if dontblock {
          err := if w.offset == 0 then WouldBlock else Ok;
          finished := true;
        }
      } else {
        finished := true;
      }
    }

    /** `lwip_netconn_do_writemore` on replies for which its loop ends; `n` is the number of
        passes it made. */
    method WriteMore(delayed: bool, replies: nat -> Reply, output: Err) returns (n: nat, ret: Err)
      requires state == StWrite && pcb.Some? && currentMsg.Some? && currentMsg.value.op.Writing?
      requires Ready(currentMsg.value.op.w) && StallFree(currentMsg.value.op.w, currentMsg.value.op.dontblock)
      modifies this
      ensures Ret(View(), ret) == DoWritemore(old(View()), delayed, WriteCall(replies, n, output))
      ensures Returns(old(View()), WriteCall(replies, n, output))
    {
      var m := currentMsg.value;
      var dontblock := m.op.dontblock;
      var w, loopErr, more;
      w, loopErr, more, n := NetconnWrite.Writemore(m.op.w, dontblock, replies);
      currentMsg := Some(m.(op := Writing(w, dontblock)));
      took := took + more;
      ret := EndWrite(loopErr, output, delayed);
    }

    /** The end of `lwip_netconn_do_writemore`. */
    method EndWrite(loopErr: Err, output: Err, delayed: bool) returns (ret: Err)
      requires currentMsg.Some? && currentMsg.value.op.Writing?
      modifies this`currentMsg, this`state, this`ledger
      ensures Ret(View(), ret) == old(Written(View(), loopErr, output, delayed))
    {
      ghost var c := View();
      var finished, err := Settle(currentMsg.value.op.w, currentMsg.value.op.dontblock, loopErr, output);
      if finished {
        WrittenIs(c, loopErr, output, delayed, err);
        Finish(err, delayed);
        return Ok;
      }
      return Mem;
    }

    method Connect(id: nat, tcp: Err)
      modifies this
      ensures View() == DoConnect(old(View()), id, tcp)
    {
      if pcb.None? {
        Return(id, ToConnect, Clsd);
      } else if state == StConnect {
        Return(id, ToConnect, Already);
      } else if state != StNone {
        Return(id, ToConnect, IsConn);
      } else {
        if tcp != Ok {
          pcb := Some(SetUp(pcb.value));
          Return(id, ToConnect, tcp);
        } else {
          pcb := Some(SetUp(pcb.value).(connecting := true));
          state := StConnect;
          inNbConnect := nonblocking;
          if nonblocking {
            Return(id, ToConnect, InProgress);
          } else {
            currentMsg := Some(Msg(id, Connecting));
            assert state == StConnect;
            Wait(id);
          }
        }
      }
    }

    method Write(id: nat, vectors: seq<seq<byte>>, dontblock: bool, replies: nat -> Reply, output: Err) returns (n: nat)
      requires vectors != []
      requires StallFree(Start(vectors, |Flatten(vectors)|), nonblocking || dontblock)
      modifies this
      ensures View() == DoWrite(old(View()), id, vectors, dontblock, WriteCall(replies, n, output))
    {
      n := 0;
      var err := pendingErr;
      pendingErr := Ok;
      if err != Ok {
        Return(id, ToWrite, err);
      } else if state != StNone {
        Return(id, ToWrite, InProgress);
      } else if pcb.Some? {
        n := StartWrite(id, vectors, dontblock, replies, output);
      } else {
        Return(id, ToWrite, NotConn);
      }
    }

    /** The write is started, and waits if `lwip_netconn_do_writemore` says so. */
    method StartWrite(id: nat, vectors: seq<seq<byte>>, dontblock: bool, replies: nat -> Reply, output: Err)
        returns (n: nat)
      requires vectors != [] && StallFree(Start(vectors, |Flatten(vectors)|), nonblocking || dontblock) && pcb.Some?
      modifies this
      ensures View() == old(WaitOn(DoWritemore(BeginWrite(View(), id, vectors, dontblock), false,
                                               WriteCall(replies, n, output)), id))
    {
      state := StWrite;
      currentMsg := Some(Msg(id, Writing(Start(vectors, |Flatten(vectors)|), nonblocking || dontblock)));
      took := [];
      StartReady(vectors);
      n := WriteOrWait(id, replies, output);
    }

    method WriteOrWait(id: nat, replies: nat -> Reply, output: Err) returns (n: nat)
      requires state == StWrite && pcb.Some? && currentMsg.Some? && currentMsg.value.op.Writing?
      requires Ready(currentMsg.value.op.w) && StallFree(currentMsg.value.op.w, currentMsg.value.op.dontblock)
      modifies this
      ensures View() == WaitOn(DoWritemore(old(View()), false, WriteCall(replies, n, output)), id)
    {
      ghost var c := View();
      var err;
      n, err := WriteMore(false, replies, output);
      WaitsInState(c, WriteCall(replies, n, output));
      if err != Ok {
        assert state == StWrite;
        Wait(id);
      }
    }

    method Close(id: nat, rx: bool, tx: bool, polls: nat, r: CloseReply)
      modifies this
      ensures View() == DoClose(old(View()), id, rx, tx, polls, r)
    {
      if pcb.Some? && ((rx && tx) || state != StListen) {
        if state == StConnect {
          Return(id, ToClose, NotConn);
        } else if state == StWrite {
          Return(id, ToClose, InProgress);
        } else {
          state := StClose;
          currentMsg := Some(Msg(id, Closing(rx, tx, polls)));
          var err := CloseInternal(false, r);
          if err != Ok {
            assert state == StClose;
            Wait(id);
          }
        }
      } else {
        Return(id, ToClose, NotConn);
      }
    }

    method Delete(id: nat, polls: nat, r: CloseReply)
      modifies this
      ensures View() == DoDelconn(old(View()), id, polls, r)
    {
      if (state != StNone && state != StListen && state != StConnect) || (state == StConnect && !inNbConnect) {
        Return(id, ToClose, InProgress);
      } else if pcb.Some? {
        state := StClose;
        currentMsg := Some(Msg(id, Closing(true, true, polls)));
        var err := CloseInternal(false, r);
        if err != Ok {
          assert state == StClose;
          Wait(id);
        }
      } else {
        Return(id, ToClose, Ok);
      }
    }

    method Listen(id: nat, r: ListenReply)
      modifies this
      ensures View() == DoListen(old(View()), id, r)
    {
      var err: Err;
      if pcb.Some? {
        if state == StNone {
          match r {
            case PcbInUse => err := Val;
            case NoListenPcb(e) => err := e;
            case NoAcceptMbox(e) => err := e; pcb := None;
            case Listening =>
              err := Ok;
              state := StListen;
              pcb := Some(Pcb(false, true, true, false, false, false));
          }
        } else if state == StListen {
          err := Ok;
        } else {
          err := NotConn;
        }
      } else {
        err := NotConn;
      }
      Return(id, ToListen, err);
    }

    /** `lwip_netconn_do_connected`, with its asserts as preconditions. */
    method OnConnected(err: Err)
      requires pcb.Some? && state == StConnect && currentMsg.Some? == !inNbConnect
      modifies this
      ensures View() == Connected(old(View()), err)
    {
      pcb := Some(pcb.value.(connecting := false));
      if err == Ok {
        pcb := Some(SetUp(pcb.value));
      }
      var wasBlocking := !inNbConnect;
      inNbConnect := false;
      if wasBlocking {
        Finish(err, true);
      } else {
        state := StNone;
      }
    }

    /** `err_tcp`, with its asserts as precondition. */
    method OnErr(err: Err)
      requires AssertsHold(View(), EvErr(err))
      modifies this
      ensures View() == ErrTcp(old(View()), err)
    {
      pcb := None;
      pendingErr := err;
      var oldState := state;
      state := StNone;
      if oldState == StWrite || oldState == StClose || oldState == StConnect {
        var wasNonblockingConnect := inNbConnect;
        inNbConnect := false;
        if !wasNonblockingConnect {
          // let close succeed: the connection is closed after all
          Finish(if oldState == StClose then Ok else err, true);
        }
      }
    }

    /** `sent_tcp` and `poll_tcp`, on a netconn that keeps the invariant. */
    method OnSent(replies: nat -> Reply, output: Err, r: CloseReply) returns (n: nat)
      requires CoreInv(View())
      requires currentMsg.Some? && currentMsg.value.op.Writing? ==> StallFree(currentMsg.value.op.w, false)
      modifies this
      ensures View() == SentTcp(old(View()), WriteCall(replies, n, output), r)
      ensures Returns(old(View()), WriteCall(replies, n, output))
    {
      n := 0;
      if state == StWrite {
        var ret;
        n, ret := WriteMore(true, replies, output);
      } else if state == StClose {
        var ret := CloseInternal(true, r);
      }
    }

    method OnPoll(replies: nat -> Reply, output: Err, r: CloseReply) returns (n: nat)
      requires CoreInv(View())
      requires currentMsg.Some? && currentMsg.value.op.Writing? ==> StallFree(currentMsg.value.op.w, false)
      modifies this
      ensures View() == PollTcp(old(View()), WriteCall(replies, n, output), r)
      ensures Returns(old(View()), WriteCall(replies, n, output))
    {
      n := 0;
      if state == StWrite {
        var ret;
        n, ret := WriteMore(true, replies, output);
      } else if state == StClose {
        var m := currentMsg.value;
        if m.op.pollsLeft > 0 {
          currentMsg := Some(m.(op := m.op.(pollsLeft := m.op.pollsLeft - 1)));
        }
        var ret := CloseInternal(true, r);
      }
    }
  }
}
