/** The receive path of a netconn: the stack thread posts to `recvmbox` (recv_raw, recv_udp,
    recv_tcp, err_tcp in api_msg.c) while one application thread fetches from it
    (netconn_recv_data, netconn_recv_data_tcp in api_lib.c) without the core lock.

    Posting, fetching, every change of `recv_avail` and of the error state and every event are
    steps of their own, so the steps of the two threads interleave freely. Only the test whether
    a receive may block is one step: the error state is set in one protected section, so of the
    reads it makes the last one alone decides. The stack thread is one thread: it finishes a
    callback before it starts the next. */
module NetconnRecv {
  import opened Lwip

  /** A mailbox entry: a pbuf or netbuf with its length, or one of the markers
      netconn_aborted, netconn_reset and netconn_closed. A FIN is `Marker(Clsd)`. */
  datatype Item = Data(id: nat, len: nat) | Marker(err: Err)

  /** `cap` is the size of the mailbox; `bufsize` is SO_RCVBUF. */
  datatype Config = Config(tcp: bool, cap: nat, bufsize: nat, nonblocking: bool)

  datatype Flags = Flags(dontblock: bool, noAutoRcvd: bool, noFin: bool)

  datatype Producer = PIdle | PChecked(item: Item) | PPosted(item: Item) | PAdded

  datatype Consumer =
    | CIdle
    | CDecided(block: bool, f: Flags)
    | CEmpty(f: Flags)             // tryfetch found nothing
    | CNoErr(f: Flags)             // ... and netconn_err found nothing
    | CPopped(item: Item, f: Flags)
    | CSubtracted(item: Item, f: Flags)
    | CReturned(item: Item, f: Flags)   // netconn_recv_data returned ERR_OK
    | CCredited(item: Item, f: Flags)   // lwip_netconn_do_recv is done
    | CFin                         // handle_fin
    | CShut                        // handle_fin, after the event

  datatype ErrPhase = NoError | ErrSet(err: Err) | ErrDone(err: Err)

  /** History: what was posted and fetched, the results returned so far, how often a FIN was
      credited to the TCP window, whether the caller asked for it not to be, and the bytes of
      data that were credited and those that were left to the caller to credit. */
  datatype Log = Log(
    posted: seq<Item>, got: seq<Item>, results: seq<Result>, finCredits: nat, finKept: bool, credit: nat, kept: nat)

  datatype Result = GotData(id: nat) | Failed(err: Err)

  datatype Rx = Rx(box: seq<Item>, valid: bool, avail: int, balance: int, finPending: bool, pendingErr: Err,
                   prod: Producer, cons: Consumer, errp: ErrPhase, log: Log)

  /** err_tcp clears the pcb and sets NETCONN_FLAG_MBOXCLOSED in one protected section, and
      nothing sets them back. */
  predicate MboxClosed(s: Rx) { s.errp != NoError }
  predicate HasPcb(s: Rx) { s.errp == NoError }

  function NewRx(): Rx {
    Rx([], true, 0, 0, false, Ok, PIdle, CIdle, NoError, Log([], [], [], 0, false, 0, 0))
  }

  function Len(i: Item): nat { if i.Data? then i.len else 0 }

  function Bytes(s: seq<Item>): nat {
    if s == [] then 0 else Len(s[0]) + Bytes(s[1..])
  }

  lemma {:induction false} BytesAppend(s: seq<Item>, i: Item)
    ensures Bytes(s + [i]) == Bytes(s) + Len(i)
  {
    if s == [] {
      assert s + [i] == [i];
    } else {
      assert (s + [i])[1..] == s[1..] + [i];
      BytesAppend(s[1..], i);
    }
  }

  datatype StackEvent =
    | Arrive(item: Item)        // recv_udp/recv_raw/recv_tcp: read recv_avail and compare
    | Post                      // sys_mbox_trypost
    | Add                       // SYS_ARCH_INC(recv_avail)
    | Announce                  // API_EVENT(RCVPLUS)
    | SetError(err: Err)        // err_tcp, protected section
    | PostError                 // err_tcp, API_EVENT(RCVPLUS) and sys_mbox_trypost

  datatype AppEvent =
    | Begin(f: Flags)           // entry up to the decision whether to block
    | Fetch                     // sys_arch_mbox_fetch or sys_arch_mbox_tryfetch
    | GiveUpWaiting             // sys_arch_mbox_fetch timed out
    | ReadErr                   // netconn_err
    | GiveUp                    // the rest of the empty path
    | Subtract                  // SYS_ARCH_DEC(recv_avail)
    | Retire                    // API_EVENT(RCVMINUS) and return, or return the marker
    | Credit                    // lwip_netconn_do_recv
    | Deliver                   // the end of netconn_recv_data_tcp
    | FinEvent                  // handle_fin: API_EVENT(RCVMINUS)
    | FinShut(drained: bool)    // handle_fin: netconn_close_shutdown(NETCONN_SHUT_RD)

  datatype Event = Stack(se: StackEvent) | App(ae: AppEvent)

  /** The effect of a step of the stack thread; `Enabled` says when it can be taken. */
  function StackStep(k: Config, s: Rx, e: StackEvent): Rx {
    match e
    case Arrive(item) =>
      if !s.valid || (!k.tcp && s.avail + Len(item) > k.bufsize) then s else s.(prod := PChecked(item))
    case Post =>
      if !s.prod.PChecked? then s
      else if |s.box| >= k.cap || !s.valid then s.(prod := PIdle)
      else s.(prod := PPosted(s.prod.item), box := s.box + [s.prod.item],
              log := s.log.(posted := s.log.posted + [s.prod.item]))
    case Add =>
      if !s.prod.PPosted? then s else s.(prod := PAdded, avail := s.avail + Len(s.prod.item))
    case Announce => s.(prod := PIdle, balance := s.balance + 1)
    case SetError(err) => s.(errp := ErrSet(err), pendingErr := err)
    case PostError =>
      var err := if s.errp.ErrSet? then s.errp.err else Ok;
      var t := s.(errp := ErrDone(err), balance := s.balance + 1);
      var m := Marker(err);
      if s.valid && |s.box| < k.cap then t.(box := s.box + [m], log := s.log.(posted := s.log.posted + [m])) else t
  }

  function Return(s: Rx, r: Result): Rx {
    s.(cons := CIdle, log := s.log.(results := s.log.results + [r]))
  }

  function DoBegin(k: Config, s: Rx, f: Flags): Rx {
    if !s.valid then
      if k.tcp then Return(s, Failed(NotConn))
      else Return(s.(pendingErr := Ok), Failed(if s.pendingErr == Ok then NotConn else s.pendingErr))
    else if k.tcp && s.finPending then s.(finPending := false, cons := CFin)
    else s.(cons := CDecided(!(k.nonblocking || f.dontblock || MboxClosed(s) || s.pendingErr != Ok), f))
  }

  function DoFetch(s: Rx, f: Flags): Rx {
    if s.box == [] then s.(cons := CEmpty(f))
    else s.(cons := CPopped(s.box[0], f), box := s.box[1..], log := s.log.(got := s.log.got + [s.box[0]]))
  }

  function DoRetire(k: Config, s: Rx, item: Item, f: Flags): Rx {
    if item.Marker? then
      if item.err != Clsd then Return(s, Failed(item.err)) else s.(cons := CReturned(item, f))
    else
      var d := s.(balance := s.balance - 1);
      if k.tcp then d.(cons := CReturned(item, f)) else Return(d, GotData(item.id))
  }

  function DoCredit(s: Rx, item: Item, f: Flags): Rx {
    var fin := if item.Marker? && !f.noAutoRcvd && HasPcb(s) then 1 else 0;
    s.(cons := CCredited(item, f),
       log := s.log.(finCredits := s.log.finCredits + fin, finKept := s.log.finKept || (item.Marker? && f.noAutoRcvd),
                     credit := s.log.credit + if !f.noAutoRcvd && HasPcb(s) then Len(item) else 0,
                     kept := s.log.kept + if f.noAutoRcvd then Len(item) else 0))
  }

  function DoDeliver(s: Rx, item: Item, f: Flags): Rx {
    if item.Data? then Return(s, GotData(item.id))
    else if f.noFin then Return(s.(finPending := true), Failed(WouldBlock))
    else s.(cons := CFin)
  }

  function DoFinShut(s: Rx, drained: bool): Rx {
    if !HasPcb(s) then Return(s.(pendingErr := Ok), Failed(if s.pendingErr != Ok then s.pendingErr else Rst))
    else Return(if drained then s.(valid := false, box := []) else s, Failed(Clsd))
  }

  /** The effect of a step of the receiving thread. */
  function AppStep(k: Config, s: Rx, e: AppEvent): Rx {
    match e
    case Begin(f) => DoBegin(k, s, f)
    case Fetch => if s.cons.CDecided? then DoFetch(s, s.cons.f) else s
    case GiveUpWaiting => Return(s, Failed(Timeout))
    case ReadErr =>
      if s.pendingErr != Ok then Return(s.(pendingErr := Ok), Failed(s.pendingErr))
      else if s.cons.CEmpty? then s.(cons := CNoErr(s.cons.f)) else s
    case GiveUp => Return(s, Failed(if MboxClosed(s) then NotConn else WouldBlock))
    case Subtract =>
      if s.cons.CPopped? then s.(avail := s.avail - Len(s.cons.item), cons := CSubtracted(s.cons.item, s.cons.f)) else s
    case Retire =>
      if s.cons.CPopped? || s.cons.CSubtracted? then DoRetire(k, s, s.cons.item, s.cons.f) else s
    case Credit => if s.cons.CReturned? then DoCredit(s, s.cons.item, s.cons.f) else s
    case Deliver => if s.cons.CCredited? then DoDeliver(s, s.cons.item, s.cons.f) else s
    case FinEvent => s.(cons := CShut, balance := s.balance - 1)
    case FinShut(drained) => DoFinShut(s, drained)
  }

  function Step(k: Config, s: Rx, e: Event): Rx {
    if e.Stack? then StackStep(k, s, e.se) else AppStep(k, s, e.ae)
  }

  const FIN := Marker(Clsd)

  /** The stack thread is between two callbacks, so the core lock is free. */
  predicate StackIdle(s: Rx) { s.prod.PIdle? && !s.errp.ErrSet? }

  /** When a step can be taken. TCP delivers data and FINs in order: no data and no second FIN
      after a FIN was accepted. */
  predicate StackEnabled(k: Config, s: Rx, e: StackEvent) {
    match e
    case Arrive(item) =>
      StackIdle(s) && HasPcb(s) && (if k.tcp then item.Data? || item == FIN else item.Data?)
      && (k.tcp ==> FIN !in s.log.posted)
    case Post => s.prod.PChecked?
    case Add => s.prod.PPosted?
    case Announce => s.prod.PAdded?
    case SetError(err) => k.tcp && StackIdle(s) && s.errp == NoError && err in {Abrt, Rst, Clsd}
    case PostError => s.errp.ErrSet?
  }

  /** `lwip_netconn_do_recv` and the shutdown need the core lock. */
  predicate AppEnabled(s: Rx, e: AppEvent) {
    match e
    case Begin(f) => s.cons.CIdle?
    case Fetch => s.cons.CDecided? && (s.cons.block ==> s.box != [])
    case GiveUpWaiting => s.cons.CDecided? && s.cons.block
    case ReadErr => s.cons.CEmpty?
    case GiveUp => s.cons.CNoErr?
    case Subtract => s.cons.CPopped? && s.cons.item.Data?
    case Retire => (s.cons.CPopped? && s.cons.item.Marker?) || (s.cons.CSubtracted? && s.cons.item.Data?)
    case Credit => s.cons.CReturned? && StackIdle(s)
    case Deliver => s.cons.CCredited?
    case FinEvent => s.cons.CFin?
    case FinShut(drained) => s.cons.CShut? && StackIdle(s)
  }

  predicate Enabled(k: Config, s: Rx, e: Event) {
    if e.Stack? then StackEnabled(k, s, e.se) else AppEnabled(s, e.ae)
  }

  function Run(k: Config, s: Rx, es: seq<Event>): Rx
    decreases |es|
  {
    if es == [] then s else Run(k, Step(k, s, es[0]), es[1..])
  }

  predicate RunOk(k: Config, s: Rx, es: seq<Event>)
    decreases |es|
  {
    es == [] || (Enabled(k, s, es[0]) && RunOk(k, Step(k, s, es[0]), es[1..]))
  }

  // ------------------------------------------------------------------ invariants

  function B2N(b: bool): nat { if b then 1 else 0 }

  /** Bytes fetched but not yet subtracted, and posted but not yet added. */
  function Fetched(c: Consumer): nat { if c.CPopped? then Len(c.item) else 0 }
  function Unadded(p: Producer): nat { if p.PPosted? then Len(p.item) else 0 }

  /** Bytes fetched but not yet passed to `lwip_netconn_do_recv`. */
  function Uncredited(c: Consumer): nat { if c.CPopped? || c.CSubtracted? || c.CReturned? then Len(c.item) else 0 }

  /** The window: each of the `n` bytes fetched so far is credited once, or left to the caller. */
  ghost predicate Granted(s: Rx, n: nat) { s.log.credit + s.log.kept + Uncredited(s.cons) == n }

  /** `recv_avail` is exact up to the steps in flight, and on a datagram netconn the `n` bytes
      queued never exceed SO_RCVBUF. */
  ghost predicate AccountedFor(k: Config, n: nat, s: Rx) {
    && s.avail == n + Fetched(s.cons) - Unadded(s.prod)
    && (!k.tcp ==> n <= k.bufsize)
    && (!k.tcp && s.prod.PChecked? ==> n + Len(s.prod.item) <= k.bufsize)
  }

  ghost predicate Accounted(k: Config, s: Rx) {
    AccountedFor(k, Bytes(s.box), s)
  }

  lemma {:induction false} GrantedFrame(k: Config, s: Rx, e: AppEvent, n: nat)
    requires AppEnabled(s, e) && HasPcb(s) && k.tcp && Granted(s, n) && !e.Fetch?
    ensures Granted(AppStep(k, s, e), n) && AppStep(k, s, e).log.got == s.log.got
  {
  }

  lemma {:induction false} StackGranted(k: Config, s: Rx, e: StackEvent)
    ensures var t := StackStep(k, s, e);
            t.log.got == s.log.got && forall n: nat :: Granted(s, n) ==> Granted(t, n)
  {
  }

  lemma {:induction false} AppGranted(k: Config, s: Rx, e: AppEvent)
    requires AppEnabled(s, e) && HasPcb(s) && k.tcp && Granted(s, Bytes(s.log.got))
    ensures Granted(AppStep(k, s, e), Bytes(AppStep(k, s, e).log.got))
  {
    if !e.Fetch? {
      GrantedFrame(k, s, e, Bytes(s.log.got));
    } else if s.box != [] {
      BytesAppend(s.log.got, s.box[0]);
    }
  }

  lemma {:induction false} StackFrame(k: Config, s: Rx, e: StackEvent, n: nat)
    requires StackEnabled(k, s, e) && AccountedFor(k, n, s) && !e.Post? && !e.PostError?
    ensures var t := StackStep(k, s, e); AccountedFor(k, n, t) && t.box == s.box
  {
  }

  lemma {:induction false} StackAccounted(k: Config, s: Rx, e: StackEvent)
    requires StackEnabled(k, s, e) && Accounted(k, s) && (s.errp.ErrSet? ==> k.tcp)
    ensures Accounted(k, StackStep(k, s, e))
  {
    if e.Post? {
      BytesAppend(s.box, s.prod.item);
    } else if e.PostError? {
      BytesAppend(s.box, Marker(s.errp.err));
    } else {
      StackFrame(k, s, e, Bytes(s.box));
    }
  }

  lemma {:induction false} AppFrame(k: Config, s: Rx, e: AppEvent, n: nat)
    requires AppEnabled(s, e) && AccountedFor(k, n, s) && !e.Fetch?
    ensures var t := AppStep(k, s, e); AccountedFor(k, n, t) && (t.box == s.box || (e.FinShut? && t.box == []))
  {
  }

  lemma {:induction false} AppAccounted(k: Config, s: Rx, e: AppEvent)
    requires AppEnabled(s, e) && Accounted(k, s) && (e.FinShut? && HasPcb(s) ==> s.box == [])
    ensures Accounted(k, AppStep(k, s, e))
  {
    if !e.Fetch? {
      AppFrame(k, s, e, Bytes(s.box));
    }
  }

  /** The error phases, and the wake-up: once err_tcp is done, a receiver that had decided to
      block finds something in the mailbox. */
  ghost predicate Phased(k: Config, s: Rx) {
    && |s.box| <= k.cap
    && (s.errp != NoError ==> k.tcp && s.prod.PIdle?)
    && (s.pendingErr != Ok ==> s.errp != NoError)
    && (!s.valid ==> s.cons.CIdle? && s.box == [])
    && (s.cons.CSubtracted? ==> s.cons.item.Data?)
    && (s.cons.CDecided? && s.cons.block && s.errp.ErrDone? ==> s.box != [])
    && (!k.tcp ==> !s.cons.CReturned? && !s.cons.CCredited? && !s.cons.CFin? && !s.cons.CShut? && !s.finPending)
  }

  predicate IsErrCode(e: Err) { e in {Abrt, Rst, Clsd} }

  /** Only the error codes of err_tcp travel through `pending_err` and the mailbox. */
  ghost predicate ErrCodes(s: Rx) {
    && (s.pendingErr == Ok || IsErrCode(s.pendingErr))
    && (s.errp.ErrSet? ==> IsErrCode(s.errp.err))
    && (forall i | 0 <= i < |s.box| && s.box[i].Marker? :: IsErrCode(s.box[i].err))
    && (s.prod.PChecked? && s.prod.item.Marker? ==> s.prod.item == FIN)
    && (Held(s.cons) != [] && s.cons.item.Marker? ==> IsErrCode(s.cons.item.err))
  }

  lemma {:induction false} StackErrCodes(k: Config, s: Rx, e: StackEvent)
    requires StackEnabled(k, s, e) && ErrCodes(s)
    ensures ErrCodes(StackStep(k, s, e))
  {
  }

  lemma {:induction false} AppErrCodes(k: Config, s: Rx, e: AppEvent)
    requires AppEnabled(s, e) && ErrCodes(s)
    ensures ErrCodes(AppStep(k, s, e))
  {
    if e.Fetch? {
      FetchErrCodes(s, s.cons.f);
    } else {
      OtherErrCodes(k, s, e);
    }
  }

  lemma {:induction false} FetchErrCodes(s: Rx, f: Flags)
    requires ErrCodes(s)
    ensures ErrCodes(DoFetch(s, f))
  {
  }

  lemma {:induction false} OtherErrCodes(k: Config, s: Rx, e: AppEvent)
    requires AppEnabled(s, e) && ErrCodes(s) && !e.Fetch?
    ensures ErrCodes(AppStep(k, s, e))
  {
    CodesKept(k, s, e);
    KeptCodes(s, AppStep(k, s, e));
  }

  /** No step but a fetch adds an error code. */
  ghost predicate NoNewCodes(s: Rx, t: Rx) {
    && (t.pendingErr == s.pendingErr || t.pendingErr == Ok) && t.errp == s.errp && t.prod == s.prod
    && (t.box == s.box || t.box == [])
    && (Held(t.cons) == [] || Held(t.cons) == Held(s.cons))
  }

  lemma {:induction false} CodesKept(k: Config, s: Rx, e: AppEvent)
    requires AppEnabled(s, e) && !e.Fetch?
    ensures NoNewCodes(s, AppStep(k, s, e))
  {
  }

  lemma {:induction false} KeptCodes(s: Rx, t: Rx)
    requires ErrCodes(s) && NoNewCodes(s, t)
    ensures ErrCodes(t)
  {
    if Held(t.cons) != [] {
      assert t.cons.item == Held(t.cons)[0] == Held(s.cons)[0] == s.cons.item;
    }
  }

  lemma {:induction false} StackPhased(k: Config, s: Rx, e: StackEvent)
    requires StackEnabled(k, s, e) && Phased(k, s) && k.cap > 0
    ensures Phased(k, StackStep(k, s, e))
  {
  }

  lemma {:induction false} AppPhased(k: Config, s: Rx, e: AppEvent)
    requires AppEnabled(s, e) && Phased(k, s) && (!k.tcp && s.cons.CPopped? ==> s.cons.item.Data?)
    ensures Phased(k, AppStep(k, s, e))
  {
  }

  // ------------------------------------------------------------------ order

  function Ids(s: seq<Item>): seq<nat> {
    if s == [] then []
    else Ids(s[..|s| - 1]) + (if s[|s| - 1].Data? then [s[|s| - 1].id] else [])
  }

  function GotIds(s: seq<Result>): seq<nat> {
    if s == [] then []
    else GotIds(s[..|s| - 1]) + (if s[|s| - 1].GotData? then [s[|s| - 1].id] else [])
  }

  lemma {:induction false} IdsAppend(s: seq<Item>, i: Item)
    ensures Ids(s + [i]) == Ids(s) + (if i.Data? then [i.id] else [])
  {
    assert (s + [i])[..|s|] == s;
  }

  lemma {:induction false} GotIdsAppend(s: seq<Result>, r: Result)
    ensures GotIds(s + [r]) == GotIds(s) + (if r.GotData? then [r.id] else [])
  {
    assert (s + [r])[..|s|] == s;
  }

  /** The item the receiver holds, from the fetch to the return. */
  function Held(c: Consumer): seq<Item> {
    if c.CPopped? || c.CSubtracted? || c.CReturned? || c.CCredited? then [c.item] else []
  }

  function HeldIds(c: Consumer): seq<nat> {
    if Held(c) != [] && c.item.Data? then [c.item.id] else []
  }

  /** The mailbox is a queue, and the application gets the data it was posted, in order. */
  ghost predicate Ordered(s: Rx) {
    && s.log.got + s.box == s.log.posted
    && (Held(s.cons) != [] ==> s.log.got != [] && s.log.got[|s.log.got| - 1] == s.cons.item)
    && GotIds(s.log.results) + HeldIds(s.cons) == Ids(s.log.got)
  }

  lemma {:induction false} StackOrdered(k: Config, s: Rx, e: StackEvent)
    requires StackEnabled(k, s, e) && Ordered(s)
    ensures Ordered(StackStep(k, s, e))
  {
    var t := StackStep(k, s, e);
    if t.box != s.box {
      assert t.box == s.box + [t.box[|s.box|]];
      assert s.log.got + t.box == s.log.posted + [t.box[|s.box|]];
    }
  }

  lemma {:induction false} FetchOrdered(s: Rx, f: Flags)
    requires Ordered(s) && HeldIds(s.cons) == []
    ensures Ordered(DoFetch(s, f))
  {
    if s.box != [] {
      assert s.box == [s.box[0]] + s.box[1..];
      assert (s.log.got + [s.box[0]]) + s.box[1..] == s.log.posted;
      IdsAppend(s.log.got, s.box[0]);
    }
  }

  function ResultIds(r: Result): seq<nat> { if r.GotData? then [r.id] else [] }

  /** Every step but a fetch: nothing moves in the mailbox, and what the receiver held is still
      held or is returned. */
  ghost predicate AppDelta(s: Rx, t: Rx) {
    && t.log.got == s.log.got && t.log.posted == s.log.posted && t.box == s.box
    && (Held(t.cons) == [] || Held(t.cons) == Held(s.cons))
    && ((t.log.results == s.log.results && HeldIds(t.cons) == HeldIds(s.cons))
        || (|t.log.results| > 0 && t.log.results == s.log.results + [t.log.results[|t.log.results| - 1]]
            && HeldIds(t.cons) == [] && HeldIds(s.cons) == ResultIds(t.log.results[|t.log.results| - 1])))
  }

  lemma {:induction false} AppDeltaHolds(k: Config, s: Rx, e: AppEvent)
    requires AppEnabled(s, e) && !e.Fetch? && (e.FinShut? && HasPcb(s) ==> s.box == [])
    ensures AppDelta(s, AppStep(k, s, e))
  {
    match e {
      case Begin(f) => BeginDelta(k, s, f);
      case GiveUpWaiting => ReturnDelta(s, s, Failed(Timeout));
      case ReadErr => ReturnDelta(s, s.(pendingErr := Ok), Failed(s.pendingErr));
      case GiveUp => ReturnDelta(s, s, Failed(if MboxClosed(s) then NotConn else WouldBlock));
      case Subtract =>
      case Retire => RetireDelta(k, s, s.cons.item, s.cons.f);
      case Credit =>
      case Deliver => DeliverDelta(s, s.cons.item, s.cons.f);
      case FinEvent =>
      case FinShut(drained) => ShutDelta(s, drained);
    }
  }

  lemma {:induction false} BeginDelta(k: Config, s: Rx, f: Flags)
    requires s.cons.CIdle?
    ensures AppDelta(s, DoBegin(k, s, f))
  {
    if !s.valid {
      if k.tcp {
        ReturnDelta(s, s, Failed(NotConn));
      } else {
        ReturnDelta(s, s.(pendingErr := Ok), Failed(if s.pendingErr == Ok then NotConn else s.pendingErr));
      }
    }
  }

  lemma {:induction false} RetireDelta(k: Config, s: Rx, item: Item, f: Flags)
    requires s.cons == CPopped(item, f) || s.cons == CSubtracted(item, f)
    ensures AppDelta(s, DoRetire(k, s, item, f))
  {
    if item.Marker? {
      if item.err != Clsd {
        ReturnDelta(s, s, Failed(item.err));
      }
    } else if !k.tcp {
      ReturnDelta(s, s.(balance := s.balance - 1), GotData(item.id));
    }
  }

  lemma {:induction false} DeliverDelta(s: Rx, item: Item, f: Flags)
    requires s.cons == CCredited(item, f)
    ensures AppDelta(s, DoDeliver(s, item, f))
  {
    if item.Data? {
      ReturnDelta(s, s, GotData(item.id));
    } else if f.noFin {
      ReturnDelta(s, s.(finPending := true), Failed(WouldBlock));
    }
  }

  lemma {:induction false} ShutDelta(s: Rx, drained: bool)
    requires s.cons.CShut? && (HasPcb(s) ==> s.box == [])
    ensures AppDelta(s, DoFinShut(s, drained))
  {
    if !HasPcb(s) {
      ReturnDelta(s, s.(pendingErr := Ok), Failed(if s.pendingErr != Ok then s.pendingErr else Rst));
    } else {
      ReturnDelta(s, if drained then s.(valid := false, box := []) else s, Failed(Clsd));
    }
  }

  lemma {:induction false} ReturnDelta(s: Rx, s': Rx, r: Result)
    requires s'.log == s.log && s'.box == s.box && HeldIds(s.cons) == ResultIds(r)
    ensures AppDelta(s, Return(s', r))
  {
    assert (s.log.results + [r])[|s.log.results|] == r;
  }

  lemma {:induction false} AppOrdered(k: Config, s: Rx, e: AppEvent)
    requires AppEnabled(s, e) && Ordered(s) && (e.FinShut? && HasPcb(s) ==> s.box == [])
    ensures Ordered(AppStep(k, s, e))
  {
    if e.Fetch? {
      FetchOrdered(s, s.cons.f);
    } else {
      AppDeltaHolds(k, s, e);
      DeltaOrdered(s, AppStep(k, s, e));
    }
  }

  lemma {:induction false} DeltaOrdered(s: Rx, t: Rx)
    requires Ordered(s) && AppDelta(s, t)
    ensures Ordered(t)
  {
    if t.log.results != s.log.results {
      GotIdsAppend(s.log.results, t.log.results[|t.log.results| - 1]);
    }
  }

  // ------------------------------------------------------------------ events and the FIN

  /** RCVMINUS events the receiver still owes for what it holds. */
  function Owed(c: Consumer): nat {
    match c
    case CPopped(_, _) => 1
    case CSubtracted(_, _) => 1
    case CReturned(item, _) => B2N(item.Marker?)
    case CCredited(item, _) => B2N(item.Marker?)
    case CFin => 1
    case _ => 0
  }

  /** RCVPLUS minus RCVMINUS events: one per queued message, one for a deferred FIN, up to the
      steps in flight. */
  ghost predicate Balanced(s: Rx) {
    s.balance == |s.box| + B2N(s.finPending) + Owed(s.cons) - B2N(s.prod.PPosted? || s.prod.PAdded?)
  }

  function FinHeld(c: Consumer): nat {
    B2N((Held(c) != [] && c.item == FIN) || c.CFin? || c.CShut?)
  }

  function Closeds(s: seq<Result>): nat {
    if s == [] then 0 else Closeds(s[..|s| - 1]) + B2N(s[|s| - 1] == Failed(Clsd))
  }

  lemma {:induction false} ClosedsAppend(s: seq<Result>, r: Result)
    ensures Closeds(s + [r]) == Closeds(s) + B2N(r == Failed(Clsd))
  {
    assert (s + [r])[..|s|] == s;
  }

  /** The FIN passed `lwip_netconn_do_recv`. */
  function Credited(s: Rx, closeds: nat): nat {
    B2N(s.finPending || (s.cons.CCredited? && s.cons.item == FIN) || s.cons.CFin? || s.cons.CShut? || closeds > 0)
  }

  /** A FIN is posted at most once and last; it is in exactly one place: queued, held, deferred
      or reported as ERR_CLSD; and it was credited exactly once on its way through, unless the
      caller took that upon itself. */
  ghost predicate FinInv(s: Rx) { FinLast(s.log.posted) && FinPlaces(s, Closeds(s.log.results)) }

  ghost predicate FinLast(posted: seq<Item>) {
    forall i | 0 <= i < |posted| && posted[i].Marker? :: posted[i] == FIN && i == |posted| - 1
  }

  /** The same with the number of reports given. */
  ghost predicate FinPlaces(s: Rx, closeds: nat) {
    && B2N(FIN in s.log.posted) == B2N(FIN in s.box) + B2N(s.finPending) + FinHeld(s.cons) + closeds
    && (s.prod.PChecked? ==> FIN !in s.log.posted && (s.prod.item.Data? || s.prod.item == FIN))
    && (Held(s.cons) != [] && s.cons.item.Marker? ==> s.cons.item == FIN)
    && s.log.finCredits + B2N(s.log.finKept) == Credited(s, closeds)
  }

  /** Once a FIN was posted there is nothing behind it. */
  lemma {:induction false} LastIsFin(s: Rx)
    requires Ordered(s) && FinLast(s.log.posted) && FIN in s.log.posted
    ensures s.box != [] ==> s.box[|s.box| - 1] == FIN
    ensures s.box == [] ==> s.log.got != [] && s.log.got[|s.log.got| - 1] == FIN
  {
    assert s.log.posted[|s.log.posted| - 1] == FIN;
    if s.box != [] {
      assert s.log.posted[|s.log.posted| - 1] == s.box[|s.box| - 1];
    }
  }

  lemma {:induction false} AfterFin(s: Rx)
    requires Ordered(s) && FinInv(s) && FIN in s.log.posted
    ensures FIN in s.box || s.box == []
  {
    LastIsFin(s);
  }

  lemma {:induction false} StackFin(k: Config, s: Rx, e: StackEvent)
    requires StackEnabled(k, s, e) && FinInv(s) && Ordered(s) && HasPcb(s) && !e.SetError?
    requires !k.tcp ==> FIN !in s.log.posted
    ensures FinInv(StackStep(k, s, e))
  {
    if e.Post? {
      PostFin(k, s, s.prod.item, Closeds(s.log.results));
    }
  }

  lemma {:induction false} PostFin(k: Config, s: Rx, i: Item, closeds: nat)
    requires s.prod == PChecked(i) && FinLast(s.log.posted) && FinPlaces(s, closeds)
    ensures FinLast(StackStep(k, s, Post).log.posted) && FinPlaces(StackStep(k, s, Post), closeds)
    ensures StackStep(k, s, Post).log.results == s.log.results
  {
    assert FIN in s.log.posted + [i] <==> FIN in s.log.posted || i == FIN;
    assert FIN in s.box + [i] <==> FIN in s.box || i == FIN;
    if FIN !in s.log.posted {
      NoMarkers(s.log.posted);
    }
  }

  lemma {:induction false} NoMarkers(posted: seq<Item>)
    requires FinLast(posted) && FIN !in posted
    ensures forall i | 0 <= i < |posted| :: posted[i].Data?
  {
  }

  lemma {:induction false} StackBalanced(k: Config, s: Rx, e: StackEvent)
    requires StackEnabled(k, s, e) && Balanced(s) && HasPcb(s)
    ensures Balanced(StackStep(k, s, e))
  {
  }

  lemma {:induction false} AppBalanced(k: Config, s: Rx, e: AppEvent)
    requires AppEnabled(s, e) && Balanced(s) && HasPcb(s) && (e.FinShut? ==> s.box == [])
    requires !k.tcp ==> !s.finPending
    requires FinHeld(s.cons) + B2N(s.finPending) <= 1
    requires Held(s.cons) != [] && s.cons.item.Marker? ==> s.cons.item == FIN
    ensures Balanced(AppStep(k, s, e))
  {
  }

  lemma {:induction false} FetchFin(s: Rx, f: Flags)
    requires FinInv(s) && Ordered(s) && s.cons.CDecided?
    ensures FinInv(DoFetch(s, f))
  {
    if s.box != [] {
      assert s.box == [s.box[0]] + s.box[1..];
      assert s.log.posted[|s.log.got|] == s.box[0];
      forall i | 0 <= i < |s.box| && s.box[i] == FIN ensures i == |s.box| - 1 {
        assert s.log.posted[|s.log.got| + i] == s.box[i];
      }
    }
  }

  /** A call returns. */
  lemma {:induction false} ReturnPlaces(s: Rx, t: Rx, r: Result, n: nat)
    requires FinPlaces(s, n) && t.log == s.log && t.box == s.box && t.prod == s.prod
    requires FinHeld(s.cons) + B2N(s.finPending) == B2N(t.finPending) + B2N(r == Failed(Clsd))
    requires s.log.finCredits + B2N(s.log.finKept) == B2N(t.finPending || r == Failed(Clsd) || n > 0)
    ensures FinPlaces(Return(t, r), n + B2N(r == Failed(Clsd)))
  {
  }

  lemma {:induction false} ReturnFin(s: Rx, t: Rx, r: Result)
    requires FinInv(s) && t.log == s.log && t.box == s.box && t.prod == s.prod
    requires FinHeld(s.cons) + B2N(s.finPending) == B2N(t.finPending) + B2N(r == Failed(Clsd))
    requires s.log.finCredits + B2N(s.log.finKept)
             == B2N(t.finPending || r == Failed(Clsd) || Closeds(s.log.results) > 0)
    ensures FinInv(Return(t, r))
  {
    ReturnPlaces(s, t, r, Closeds(s.log.results));
    ClosedsAppend(s.log.results, r);
  }

  /** The receiver moves on without returning. */
  lemma {:induction false} MoveFin(s: Rx, t: Rx)
    requires FinInv(s) && t.log == s.log && t.box == s.box && t.prod == s.prod
    requires FinHeld(t.cons) + B2N(t.finPending) == FinHeld(s.cons) + B2N(s.finPending)
    requires Credited(t, Closeds(s.log.results)) == Credited(s, Closeds(s.log.results))
    requires Held(t.cons) != [] && t.cons.item.Marker? ==> t.cons.item == FIN
    ensures FinInv(t)
  {
  }

  lemma {:induction false} BeginFin(k: Config, s: Rx, f: Flags)
    requires FinInv(s) && s.cons.CIdle? && s.pendingErr == Ok && (!k.tcp ==> !s.finPending)
    ensures FinInv(DoBegin(k, s, f))
  {
    if !s.valid {
      ReturnFin(s, s, Failed(NotConn));
    } else {
      MoveFin(s, DoBegin(k, s, f));
    }
  }

  /** A step that reports at most something other than ERR_CLSD. */
  lemma {:induction false} SameReports(s: Rx, t: Rx, r: Result)
    requires FinLast(s.log.posted) && FinPlaces(t, Closeds(s.log.results)) && t.log.posted == s.log.posted
    requires r != Failed(Clsd) && (t.log.results == s.log.results || t.log.results == s.log.results + [r])
    ensures FinInv(t)
  {
    ClosedsAppend(s.log.results, r);
  }

  lemma {:induction false} RetirePlaces(k: Config, s: Rx, item: Item, f: Flags, n: nat)
    requires FinPlaces(s, n) && (s.cons == CPopped(item, f) || s.cons == CSubtracted(item, f))
    requires item.Marker? ==> k.tcp
    ensures FinPlaces(DoRetire(k, s, item, f), n)
  {
  }

  lemma {:induction false} RetireFin(k: Config, s: Rx, item: Item, f: Flags)
    requires FinInv(s) && (s.cons == CPopped(item, f) || s.cons == CSubtracted(item, f)) && (item.Marker? ==> k.tcp)
    ensures FinInv(DoRetire(k, s, item, f))
  {
    RetirePlaces(k, s, item, f, Closeds(s.log.results));
    SameReports(s, DoRetire(k, s, item, f), if item.Data? then GotData(item.id) else Failed(Timeout));
  }

  lemma {:induction false} CreditFin(s: Rx, item: Item, f: Flags)
    requires FinInv(s) && s.cons == CReturned(item, f) && HasPcb(s)
    ensures FinInv(DoCredit(s, item, f))
  {
  }

  lemma {:induction false} DeliverFin(s: Rx, item: Item, f: Flags)
    requires FinInv(s) && s.cons == CCredited(item, f)
    ensures FinInv(DoDeliver(s, item, f))
  {
    if item.Data? {
      ReturnFin(s, s, GotData(item.id));
    } else if f.noFin {
      ReturnFin(s, s.(finPending := true), Failed(WouldBlock));
    } else {
      MoveFin(s, s.(cons := CFin));
    }
  }

  lemma {:induction false} ShutFin(s: Rx, drained: bool)
    requires FinInv(s) && s.cons.CShut? && s.box == [] && HasPcb(s)
    ensures FinInv(DoFinShut(s, drained))
  {
    ReturnFin(s, if drained then s.(valid := false, box := []) else s, Failed(Clsd));
  }

  lemma {:induction false} WaitPlaces(k: Config, s: Rx, e: AppEvent, n: nat)
    requires AppEnabled(s, e) && FinPlaces(s, n) && s.pendingErr == Ok
    requires e.GiveUpWaiting? || e.ReadErr? || e.GiveUp? || e.Subtract?
    ensures FinPlaces(AppStep(k, s, e), n)
  {
  }

  lemma {:induction false} WaitFin(k: Config, s: Rx, e: AppEvent)
    requires AppEnabled(s, e) && FinInv(s) && HasPcb(s) && s.pendingErr == Ok
    requires e.GiveUpWaiting? || e.ReadErr? || e.GiveUp? || e.Subtract?
    ensures FinInv(AppStep(k, s, e))
  {
    WaitPlaces(k, s, e, Closeds(s.log.results));
    SameReports(s, AppStep(k, s, e), Failed(if e.GiveUp? then WouldBlock else Timeout));
  }

  lemma {:induction false} AppFin(k: Config, s: Rx, e: AppEvent)
    requires AppEnabled(s, e) && FinInv(s) && Ordered(s) && HasPcb(s) && s.pendingErr == Ok
    requires !k.tcp ==> !s.finPending && FIN !in s.log.posted && (s.cons.CPopped? ==> s.cons.item.Data?)
    requires e.FinShut? ==> s.box == []
    ensures FinInv(AppStep(k, s, e))
  {
    match e {
      case Begin(f) => BeginFin(k, s, f);
      case Fetch => FetchFin(s, s.cons.f);
      case GiveUpWaiting => WaitFin(k, s, e);
      case ReadErr => WaitFin(k, s, e);
      case GiveUp => WaitFin(k, s, e);
      case Subtract => WaitFin(k, s, e);
      case Retire => RetireFin(k, s, s.cons.item, s.cons.f);
      case Credit => CreditFin(s, s.cons.item, s.cons.f);
      case Deliver => DeliverFin(s, s.cons.item, s.cons.f);
      case FinEvent => MoveFin(s, s.(cons := CShut, balance := s.balance - 1));
      case FinShut(drained) => ShutFin(s, drained);
    }
  }

  // ------------------------------------------------------------------ whole runs

  /** Datagram netconns carry no markers. */
  ghost predicate Typed(k: Config, s: Rx) {
    !k.tcp ==>
      && (forall i | 0 <= i < |s.log.posted| :: s.log.posted[i].Data?)
      && (s.prod.PChecked? ==> s.prod.item.Data?) && (s.cons.CPopped? ==> s.cons.item.Data?)
  }

  lemma {:induction false} StackTyped(k: Config, s: Rx, e: StackEvent)
    requires Typed(k, s) && StackEnabled(k, s, e) && (s.errp.ErrSet? ==> k.tcp)
    ensures Typed(k, StackStep(k, s, e))
  {
  }

  lemma {:induction false} AppTyped(k: Config, s: Rx, e: AppEvent)
    requires Typed(k, s) && AppEnabled(s, e) && Ordered(s)
    ensures Typed(k, AppStep(k, s, e))
  {
    if e.Fetch? {
      FetchTyped(k, s, s.cons.f);
    } else {
      HeldStays(k, s, e);
    }
  }

  lemma {:induction false} FetchTyped(k: Config, s: Rx, f: Flags)
    requires Typed(k, s) && Ordered(s)
    ensures Typed(k, DoFetch(s, f))
  {
    if s.box != [] {
      assert s.log.posted[|s.log.got|] == s.box[0];
    }
  }

  lemma {:induction false} HeldStays(k: Config, s: Rx, e: AppEvent)
    requires AppEnabled(s, e) && !e.Fetch?
    ensures var t := AppStep(k, s, e); !t.cons.CPopped? && t.prod == s.prod && t.log.posted == s.log.posted
  {
  }

  // ------------------------------------------------------------------ why a call returns

  /** A netconn or a call that must not wait never decides to, and only it or an error leads to
      the path for an empty mailbox. */
  ghost predicate Decides(k: Config, s: Rx) {
    && (s.cons.CDecided? && s.cons.block ==> !k.nonblocking && !s.cons.f.dontblock)
    && ((s.cons.CDecided? && !s.cons.block) || s.cons.CEmpty? || s.cons.CNoErr? ==>
          k.nonblocking || s.cons.f.dontblock || MboxClosed(s))
    && ((s.cons.CReturned? || s.cons.CCredited?) && s.cons.item.Marker? ==> s.cons.item == FIN)
  }

  /** A marker stands for a FIN or for the error that was raised. */
  predicate Stands(item: Item, errp: ErrPhase) {
    item.Marker? ==> item == FIN || (errp != NoError && item.err == errp.err)
  }

  ghost predicate Raised(s: Rx) {
    && (s.pendingErr != Ok ==> s.errp != NoError && s.pendingErr == s.errp.err)
    && (forall i | 0 <= i < |s.box| :: Stands(s.box[i], s.errp))
    && (Held(s.cons) != [] ==> Stands(s.cons.item, s.errp))
    && (s.prod.PChecked? ==> Stands(s.prod.item, NoError))
  }

  ghost predicate Told(k: Config, s: Rx) { Decides(k, s) && Raised(s) }

  lemma {:induction false} StackTold(k: Config, s: Rx, e: StackEvent)
    requires StackEnabled(k, s, e) && Told(k, s) && (MboxClosed(s) ==> s.prod.PIdle?)
    ensures Told(k, StackStep(k, s, e))
  {
  }

  lemma {:induction false} AppDecides(k: Config, s: Rx, e: AppEvent)
    requires AppEnabled(s, e) && Decides(k, s) && (s.pendingErr != Ok ==> MboxClosed(s))
    ensures Decides(k, AppStep(k, s, e))
  {
  }

  lemma {:induction false} AppRaised(k: Config, s: Rx, e: AppEvent)
    requires AppEnabled(s, e) && Raised(s)
    ensures Raised(AppStep(k, s, e))
  {
    if !e.Fetch? {
      CodesKept(k, s, e);
      KeptRaised(s, AppStep(k, s, e));
    }
  }

  lemma {:induction false} KeptRaised(s: Rx, t: Rx)
    requires Raised(s) && NoNewCodes(s, t)
    ensures Raised(t)
  {
    if Held(t.cons) != [] {
      assert t.cons.item == Held(t.cons)[0] == Held(s.cons)[0] == s.cons.item;
    }
  }

  ghost predicate Inv(k: Config, s: Rx) {
    && Accounted(k, s) && Phased(k, s) && Ordered(s) && ErrCodes(s)
    && Typed(k, s) && Told(k, s)
    && (HasPcb(s) ==> FinInv(s) && Balanced(s) && (k.tcp ==> Granted(s, Bytes(s.log.got))))
  }

  /** A FIN that is being handled has the mailbox to itself. */
  lemma {:induction false} HandledFinLeavesEmptyBox(k: Config, s: Rx)
    requires Inv(k, s) && s.cons.CShut? && HasPcb(s)
    ensures s.box == []
  {
    AfterFin(s);
  }

  lemma {:induction false} StackKeeps(k: Config, s: Rx, e: StackEvent)
    requires Inv(k, s) && StackEnabled(k, s, e) && k.cap > 0
    ensures Inv(k, StackStep(k, s, e))
  {
    StackAccounted(k, s, e);
    StackPhased(k, s, e);
    StackErrCodes(k, s, e);
    StackOrdered(k, s, e);
    StackTyped(k, s, e);
    StackTold(k, s, e);
    if HasPcb(s) && !e.SetError? {
      StackFin(k, s, e);
      StackBalanced(k, s, e);
      StackGranted(k, s, e);
    }
  }

  lemma {:induction false} AppKeeps(k: Config, s: Rx, e: AppEvent)
    requires Inv(k, s) && AppEnabled(s, e)
    ensures Inv(k, AppStep(k, s, e))
  {
    if e.FinShut? && HasPcb(s) {
      HandledFinLeavesEmptyBox(k, s);
    }
    AppAccounted(k, s, e);
    AppPhased(k, s, e);
    AppErrCodes(k, s, e);
    AppOrdered(k, s, e);
    AppTyped(k, s, e);
    AppDecides(k, s, e);
    AppRaised(k, s, e);
    if HasPcb(s) {
      AppFin(k, s, e);
      AppBalanced(k, s, e);
      if k.tcp {
        AppGranted(k, s, e);
      }
    }
  }

  lemma {:induction false} StepKeeps(k: Config, s: Rx, e: Event)
    requires Inv(k, s) && Enabled(k, s, e) && k.cap > 0
    ensures Inv(k, Step(k, s, e))
  {
    if e.Stack? {
      StackKeeps(k, s, e.se);
    } else {
      AppKeeps(k, s, e.ae);
    }
  }

  lemma {:induction false} RunKeeps(k: Config, s: Rx, es: seq<Event>)
    requires Inv(k, s) && RunOk(k, s, es) && k.cap > 0
    ensures Inv(k, Run(k, s, es))
    decreases |es|
  {
    if es != [] {
      StepKeeps(k, s, es[0]);
      RunKeeps(k, Step(k, s, es[0]), es[1..]);
    }
  }

  lemma {:induction false} EmptyOk(k: Config, s: Rx)
    requires |s.box| == |s.log.posted| == |s.log.got| == |s.log.results| == s.log.finCredits == 0 && !s.log.finKept
    requires s.log.credit == s.log.kept == 0
    requires s.valid && s.avail == s.balance == 0 && !s.finPending && s.pendingErr == Ok
    requires s.prod.PIdle? && s.cons.CIdle? && s.errp == NoError
    ensures Inv(k, s)
  {
  }

  lemma {:induction false} NewRxOk(k: Config)
    ensures Inv(k, NewRx())
  {
    EmptyOk(k, NewRx());
  }

  lemma {:induction false} RunsKeep(k: Config, es: seq<Event>)
    requires k.cap > 0 && RunOk(k, NewRx(), es)
    ensures Inv(k, Run(k, NewRx(), es))
  {
    NewRxOk(k);
    RunKeeps(k, NewRx(), es);
  }

  /** Receive accounting in every run: `recv_avail` counts the queued bytes up to the steps in
      flight, a UDP or RAW netconn never queues more than SO_RCVBUF, and until an error every
      byte fetched from a TCP netconn is credited once or left to the caller. */
  lemma {:induction false} ReceiveAccounting(k: Config, es: seq<Event>)
    requires k.cap > 0 && RunOk(k, NewRx(), es)
    ensures Counted(k, Run(k, NewRx(), es))
  {
    RunsKeep(k, es);
    AccountOf(k, Run(k, NewRx(), es));
  }

  ghost predicate Counted(k: Config, s: Rx) {
    && s.avail == Bytes(s.box) + Fetched(s.cons) - Unadded(s.prod)
    && (!k.tcp ==> Bytes(s.box) <= k.bufsize)
    && (k.tcp && HasPcb(s) ==> s.log.credit + s.log.kept + Uncredited(s.cons) == Bytes(s.log.got))
  }

  lemma {:induction false} AccountOf(k: Config, s: Rx)
    requires Inv(k, s)
    ensures Counted(k, s)
  {
  }

  /** The flag NETCONN_NOAUTORCVD of the call in progress. */
  predicate FlagIs(c: Consumer, b: bool) {
    (c.CDecided? || c.CEmpty? || c.CNoErr? || Held(c) != []) ==> c.f.noAutoRcvd == b
  }

  ghost predicate AllAsk(es: seq<Event>, b: bool) {
    forall i | 0 <= i < |es| && es[i].App? && es[i].ae.Begin? :: es[i].ae.f.noAutoRcvd == b
  }

  /** Nothing was left to the caller, or everything was. */
  ghost predicate LeftTo(l: Log, b: bool) {
    if b then l.credit == 0 && l.finCredits == 0 else l.kept == 0 && !l.finKept
  }

  lemma {:induction false} FlagStays(k: Config, s: Rx, e: AppEvent, b: bool)
    requires AppEnabled(s, e) && FlagIs(s.cons, b) && (e.Begin? ==> e.f.noAutoRcvd == b)
    ensures FlagIs(AppStep(k, s, e).cons, b)
  {
  }

  lemma {:induction false} OnlyCreditGrants(k: Config, s: Rx, e: AppEvent)
    requires AppEnabled(s, e) && !e.Credit?
    ensures var l := AppStep(k, s, e).log;
            && l.credit == s.log.credit && l.kept == s.log.kept
            && l.finCredits == s.log.finCredits && l.finKept == s.log.finKept
  {
  }

  lemma {:induction false} StackLeaves(k: Config, s: Rx, e: StackEvent, b: bool)
    requires LeftTo(s.log, b)
    ensures StackStep(k, s, e).cons == s.cons && LeftTo(StackStep(k, s, e).log, b)
  {
  }

  lemma {:induction false} StepLeaves(k: Config, s: Rx, e: Event, b: bool)
    requires Enabled(k, s, e) && FlagIs(s.cons, b) && LeftTo(s.log, b)
    requires e.App? && e.ae.Begin? ==> e.ae.f.noAutoRcvd == b
    ensures FlagIs(Step(k, s, e).cons, b) && LeftTo(Step(k, s, e).log, b)
  {
    if e.Stack? {
      StackLeaves(k, s, e.se, b);
    } else {
      FlagStays(k, s, e.ae, b);
      if !e.ae.Credit? {
        OnlyCreditGrants(k, s, e.ae);
      }
    }
  }

  /** Who credits the window is what the flag says: if no call sets it, nothing is left to the
      callers, and if all do, the stack credits nothing. */
  lemma {:induction false} CreditFollowsFlag(k: Config, s: Rx, es: seq<Event>, b: bool)
    requires RunOk(k, s, es) && FlagIs(s.cons, b) && LeftTo(s.log, b) && AllAsk(es, b)
    ensures LeftTo(Run(k, s, es).log, b)
    decreases |es|
  {
    if es != [] {
      StepLeaves(k, s, es[0], b);
      CreditFollowsFlag(k, Step(k, s, es[0]), es[1..], b);
    }
  }

  /** The application has received the posted data in order. Until an error the events balance;
      a FIN that was posted is in exactly one place: queued, held by the receiver, deferred or
      reported as ERR_CLSD, which happens at most once and after all data; and by then it was
      credited exactly once, if crediting was left to the stack. */
  lemma {:induction false} ReceiveOrder(k: Config, es: seq<Event>)
    requires k.cap > 0 && RunOk(k, NewRx(), es)
    ensures InOrder(Run(k, NewRx(), es))
  {
    RunsKeep(k, es);
    OrderOf(k, Run(k, NewRx(), es));
  }

  ghost predicate InOrder(s: Rx) {
    && GotIds(s.log.results) + HeldIds(s.cons) + Ids(s.box) == Ids(s.log.posted)
    && (HasPcb(s) ==>
          && s.balance == |s.box| + B2N(s.finPending) + Owed(s.cons) - B2N(s.prod.PPosted? || s.prod.PAdded?)
          && FinReported(s, Closeds(s.log.results)))
  }

  ghost predicate FinReported(s: Rx, closeds: nat) {
    && B2N(FIN in s.log.posted) == B2N(FIN in s.box) + FinHeld(s.cons) + B2N(s.finPending) + closeds
    && closeds <= 1 && s.log.finCredits <= 1
    && (closeds == 1 ==> GotIds(s.log.results) == Ids(s.log.posted) && s.log.finCredits == B2N(!s.log.finKept))
  }

  lemma {:induction false} OrderOf(k: Config, s: Rx)
    requires Inv(k, s)
    ensures InOrder(s)
  {
    IdsConcat(s.log.got, s.box);
    if HasPcb(s) {
      ReportOf(s, Closeds(s.log.results));
    }
  }

  lemma {:induction false} ReportOf(s: Rx, closeds: nat)
    requires Ordered(s) && FinLast(s.log.posted) && FinPlaces(s, closeds)
    requires GotIds(s.log.results) + HeldIds(s.cons) + Ids(s.box) == Ids(s.log.posted)
    ensures FinReported(s, closeds)
  {
    ClosedOf(s, closeds);
  }

  /** Once the FIN is reported nothing is left. */
  lemma {:induction false} ClosedOf(s: Rx, closeds: nat)
    requires Ordered(s) && FinLast(s.log.posted) && FinPlaces(s, closeds)
    ensures closeds <= 1
    ensures closeds == 1 ==> s.box == [] && HeldIds(s.cons) == [] && s.log.finCredits == B2N(!s.log.finKept)
  {
    if closeds == 1 {
      LastIsFin(s);
    }
  }

  lemma {:induction false} IdsConcat(a: seq<Item>, b: seq<Item>)
    ensures Ids(a + b) == Ids(a) + Ids(b)
    decreases |b|
  {
    if b == [] {
      assert a + b == a;
    } else {
      var m := |b| - 1;
      assert (a + b)[..|a| + m] == a + b[..m];
      IdsConcat(a, b[..m]);
    }
  }

  // ------------------------------------------------------------------ after an error

  /** The step the receiver takes next. */
  function Next(s: Rx): AppEvent {
    match s.cons
    case CIdle => Begin(Flags(false, false, false))
    case CDecided(_, _) => Fetch
    case CEmpty(_) => ReadErr
    case CNoErr(_) => GiveUp
    case CPopped(item, _) => if item.Data? then Subtract else Retire
    case CSubtracted(_, _) => Retire
    case CReturned(_, _) => Credit
    case CCredited(_, _) => Deliver
    case CFin => FinEvent
    case CShut => FinShut(false)
  }

  function Rank(c: Consumer): nat {
    match c
    case CIdle => 0
    case CDecided(_, _) => 7
    case CEmpty(_) => 2
    case CNoErr(_) => 1
    case CPopped(_, _) => 6
    case CSubtracted(_, _) => 5
    case CReturned(_, _) => 4
    case CCredited(_, _) => 3
    case CFin => 2
    case CShut => 1
  }

  /** No lost wake-up: once err_tcp is done a receiver is never stuck, wherever it was, and
      reaches the end of its call after at most seven steps of its own. */
  lemma {:induction false} NeverStuckAfterError(k: Config, es: seq<Event>)
    requires k.cap > 0 && RunOk(k, NewRx(), es)
    ensures var s := Run(k, NewRx(), es);
            s.errp.ErrDone? && !s.cons.CIdle? ==>
              AppEnabled(s, Next(s)) && Rank(AppStep(k, s, Next(s)).cons) < Rank(s.cons)
  {
    RunsKeep(k, es);
    NotStuck(k, Run(k, NewRx(), es));
  }

  lemma {:induction false} NotStuck(k: Config, s: Rx)
    requires Inv(k, s)
    ensures s.errp.ErrDone? && !s.cons.CIdle? ==>
              AppEnabled(s, Next(s)) && Rank(AppStep(k, s, Next(s)).cons) < Rank(s.cons)
  {
    if s.errp.ErrDone? && !s.cons.CIdle? {
      NextGoesOn(k, s);
    }
  }

  lemma {:induction false} NextGoesOn(k: Config, s: Rx)
    requires Phased(k, s) && s.errp.ErrDone? && !s.cons.CIdle?
    ensures AppEnabled(s, Next(s)) && Rank(AppStep(k, s, Next(s)).cons) < Rank(s.cons)
  {
  }

  /** A receive that starts after the error does not block, takes queued messages first, and
      does not report ERR_WOULDBLOCK (only NETCONN_NOFIN can, for a FIN it met in the queue). */
  lemma {:induction false} ReceiveAfterError(k: Config, s: Rx, e: AppEvent)
    requires Inv(k, s) && MboxClosed(s) && AppEnabled(s, e)
    ensures var t := AppStep(k, s, e);
            && (e.Begin? ==> !(t.cons.CDecided? && t.cons.block))
            && (e.Fetch? && s.box != [] ==> t.cons == CPopped(s.box[0], s.cons.f))
            && (t.log.results == s.log.results + [Failed(WouldBlock)] ==>
                  e.Deliver? && s.cons.f.noFin && s.cons.item.Marker?)
  {
    var t := AppStep(k, s, e);
    if t.log.results == s.log.results + [Failed(WouldBlock)] {
      assert t.log.results[|s.log.results|] == Failed(WouldBlock);
    }
  }

  function FinAnswer(s: Rx): Result {
    Failed(if HasPcb(s) then Clsd else if s.pendingErr != Ok then s.pendingErr else Rst)
  }

  /** What can make a call return `r` by step `e`. */
  ghost predicate Reason(k: Config, s: Rx, e: AppEvent, r: Result)
    requires AppEnabled(s, e)
  {
    match r
    case GotData(id) => HeldIds(s.cons) == [id]
    case Failed(Timeout) => e.GiveUpWaiting? && !k.nonblocking && !s.cons.f.dontblock
    case Failed(WouldBlock) =>
      || (e.GiveUp? && HasPcb(s) && (k.nonblocking || s.cons.f.dontblock))
      || (e.Deliver? && s.cons.f.noFin && s.cons.item == FIN)
    case Failed(NotConn) => !s.valid || MboxClosed(s)
    case Failed(Clsd) => (e.FinShut? && HasPcb(s)) || (MboxClosed(s) && s.errp.err == Clsd)
    case Failed(err) => MboxClosed(s) && (err == s.errp.err || (err == Rst && e.FinShut? && s.pendingErr == Ok))
  }

  ghost predicate Justified(k: Config, s: Rx, e: AppEvent, r: Result)
    requires AppEnabled(s, e)
  {
    AppStep(k, s, e).log.results == s.log.results + [r] ==> Reason(k, s, e, r)
  }

  /** In every run a call returns data that it holds; the timeout only if neither netconn nor
      call forbade to wait; ERR_WOULDBLOCK only if one of them did and there was no error, or
      for a FIN that the caller cannot handle; ERR_CONN only without a mailbox or after an
      error; ERR_CLSD for a FIN; and otherwise the error that was raised. */
  lemma {:induction false} ReturnReasons(k: Config, es: seq<Event>, e: AppEvent, r: Result)
    requires k.cap > 0 && RunOk(k, NewRx(), es) && AppEnabled(Run(k, NewRx(), es), e)
    ensures Justified(k, Run(k, NewRx(), es), e, r)
  {
    RunsKeep(k, es);
    StepReasons(k, Run(k, NewRx(), es), e, r);
  }

  lemma {:induction false} StepReasons(k: Config, s: Rx, e: AppEvent, r: Result)
    requires Inv(k, s) && AppEnabled(s, e)
    ensures Justified(k, s, e, r)
  {
    if AppStep(k, s, e).log.results == s.log.results + [r] {
      if e.Retire? {
        RetireReason(k, s, s.cons.item, s.cons.f, r);
      } else if e.Begin? || e.ReadErr? || e.FinShut? {
        ErrorReason(k, s, e, r);
      } else {
        OtherReason(k, s, e, r);
      }
    }
  }

  lemma {:induction false} LastIs(rs: seq<Result>, r: Result, r': Result)
    requires rs + [r] == rs + [r']
    ensures r == r'
  {
    assert (rs + [r])[|rs|] == (rs + [r'])[|rs|];
  }

  lemma {:induction false} RetireReason(k: Config, s: Rx, item: Item, f: Flags, r: Result)
    requires Raised(s) && ErrCodes(s) && (s.cons == CPopped(item, f) || s.cons == CSubtracted(item, f))
    requires AppEnabled(s, Retire) && DoRetire(k, s, item, f).log.results == s.log.results + [r]
    ensures Reason(k, s, Retire, r)
  {
    if item.Data? {
      LastIs(s.log.results, GotData(item.id), r);
    } else {
      LastIs(s.log.results, Failed(item.err), r);
    }
  }

  lemma {:induction false} ErrorReason(k: Config, s: Rx, e: AppEvent, r: Result)
    requires Raised(s) && ErrCodes(s) && AppEnabled(s, e) && (e.Begin? || e.ReadErr? || e.FinShut?)
    requires AppStep(k, s, e).log.results == s.log.results + [r]
    ensures Reason(k, s, e, r)
  {
    if e.ReadErr? {
      LastIs(s.log.results, Failed(s.pendingErr), r);
    } else if e.FinShut? {
      LastIs(s.log.results, FinAnswer(s), r);
    } else {
      LastIs(s.log.results, Failed(if !k.tcp && s.pendingErr != Ok then s.pendingErr else NotConn), r);
    }
  }

  lemma {:induction false} OtherReason(k: Config, s: Rx, e: AppEvent, r: Result)
    requires Decides(k, s) && AppEnabled(s, e) && !e.Retire? && !e.Begin? && !e.ReadErr? && !e.FinShut?
    requires AppStep(k, s, e).log.results == s.log.results + [r]
    ensures Reason(k, s, e, r)
  {
    if e.GiveUpWaiting? {
      LastIs(s.log.results, Failed(Timeout), r);
    } else if e.GiveUp? {
      LastIs(s.log.results, Failed(if MboxClosed(s) then NotConn else WouldBlock), r);
    } else if e.Deliver? {
      LastIs(s.log.results, if s.cons.item.Data? then GotData(s.cons.item.id) else Failed(WouldBlock), r);
    }
  }

  /** In every run: a call that must not wait never does, and only such a call or an error leads
      to the path for an empty mailbox. */
  lemma {:induction false} WaitsOnlyIfAllowed(k: Config, es: seq<Event>)
    requires k.cap > 0 && RunOk(k, NewRx(), es)
    ensures Decides(k, Run(k, NewRx(), es))
  {
    RunsKeep(k, es);
    DecidesOf(k, Run(k, NewRx(), es));
  }

  lemma {:induction false} DecidesOf(k: Config, s: Rx)
    requires Inv(k, s)
    ensures Decides(k, s)
  {
  }

  /** Whether err_tcp was called, and with which error. */
  function RaisedIn(es: seq<Event>): Option<Err> {
    if es == [] then None
    else if es[0].Stack? && es[0].se.SetError? then Some(es[0].se.err)
    else RaisedIn(es[1..])
  }

  function ErrOf(errp: ErrPhase): Option<Err> { if errp == NoError then None else Some(errp.err) }

  lemma {:induction false} RaisedStays(k: Config, s: Rx, es: seq<Event>)
    requires RunOk(k, s, es)
    ensures ErrOf(Run(k, s, es).errp) == if s.errp != NoError then Some(s.errp.err) else RaisedIn(es)
    decreases |es|
  {
    if es != [] {
      ErrStays(k, s, es[0]);
      RaisedStays(k, Step(k, s, es[0]), es[1..]);
    }
  }

  lemma {:induction false} ErrStays(k: Config, s: Rx, e: Event)
    requires Enabled(k, s, e)
    ensures ErrOf(Step(k, s, e).errp)
            == if s.errp == NoError && e.Stack? && e.se.SetError? then Some(e.se.err) else ErrOf(s.errp)
  {
    if e.App? && !e.ae.Fetch? {
      CodesKept(k, s, e.ae);
    }
  }

  /** The error that calls return is the one err_tcp was called with. */
  lemma {:induction false} RaisedError(k: Config, es: seq<Event>)
    requires k.cap > 0 && RunOk(k, NewRx(), es)
    ensures var s := Run(k, NewRx(), es);
            && ErrOf(s.errp) == RaisedIn(es)
            && (s.pendingErr != Ok ==> RaisedIn(es) == Some(s.pendingErr))
  {
    RunsKeep(k, es);
    RaisedStays(k, NewRx(), es);
  }

  // ------------------------------------------------------------------ window credit

  function Sum(s: seq<nat>): nat {
    if s == [] then 0 else Sum(s[..|s| - 1]) + s[|s| - 1]
  }

  /** `lwip_netconn_do_recv`: `tcp_recved` takes 16 bits, so the length is credited in pieces;
      together they are exactly the length. */
  method DoRecv(len: nat) returns (credits: seq<nat>)
    ensures Sum(credits) == len && credits != []
    ensures forall i :: 0 <= i < |credits| ==> credits[i] <= 0xffff
    ensures forall i :: 0 <= i < |credits| - 1 ==> credits[i] == 0xffff
  {
    var remaining := len;
    credits := [];
    var first := true;
    while first || remaining != 0
      invariant Sum(credits) + remaining == len
      invariant first <==> credits == []
      invariant forall i :: 0 <= i < |credits| ==> credits[i] <= 0xffff
      invariant forall i :: 0 <= i < |credits| && (i < |credits| - 1 || remaining != 0) ==> credits[i] == 0xffff
      decreases first, remaining
    {
      var recved := if remaining > 0xffff then 0xffff else remaining;
      assert (credits + [recved])[..|credits|] == credits;
      credits := credits + [recved];
      remaining := remaining - recved;
      first := false;
    }
  }

  // ------------------------------------------------------------------ whole calls

  /** A receive callback that nothing interrupts. */
  function ReceiveCall(k: Config, s: Rx, item: Item): Rx {
    var s1 := StackStep(k, s, Arrive(item));
    if !s1.prod.PChecked? then s1
    else
      var s2 := StackStep(k, s1, Post);
      if !s2.prod.PPosted? then s2 else StackStep(k, StackStep(k, s2, Add), Announce)
  }

  function ErrorCall(k: Config, s: Rx, err: Err): Rx { StackStep(k, StackStep(k, s, SetError(err)), PostError) }

  function NextOf(s: Rx, drained: bool): AppEvent { if s.cons.CShut? then FinShut(drained) else Next(s) }

  lemma {:induction false} RankDecreases(k: Config, s: Rx, drained: bool)
    requires !s.cons.CIdle?
    ensures Rank(AppStep(k, s, NextOf(s, drained)).cons) < Rank(s.cons)
  {
  }

  /** The rest of a receive that nothing interrupts. */
  function Finish(k: Config, s: Rx, drained: bool): Rx
    decreases Rank(s.cons)
  {
    if s.cons.CIdle? then s
    else
      RankDecreases(k, s, drained);
      Finish(k, AppStep(k, s, NextOf(s, drained)), drained)
  }

  lemma {:induction false} FinishStep(k: Config, s: Rx, drained: bool)
    requires !s.cons.CIdle?
    ensures var t := AppStep(k, s, NextOf(s, drained));
            Finish(k, s, drained) == if t.cons.CIdle? then t else Finish(k, t, drained)
  {
    RankDecreases(k, s, drained);
  }

  lemma {:induction false} ErrorPath(k: Config, s: Rx, err: Err)
    ensures var t := s.(pendingErr := err, errp := ErrDone(err), balance := s.balance + 1);
            ErrorCall(k, s, err)
            == if s.valid && |s.box| < k.cap
               then t.(box := s.box + [Marker(err)], log := s.log.(posted := s.log.posted + [Marker(err)]))
               else t
  {
  }

  // The paths through the rest of a call.

  lemma {:induction false} FinPath(k: Config, s: Rx, drained: bool)
    ensures Finish(k, s.(cons := CFin), drained) == DoFinShut(s.(balance := s.balance - 1, cons := CShut), drained)
  {
    FinishStep(k, s.(cons := CFin), drained);
    FinishStep(k, s.(balance := s.balance - 1, cons := CShut), drained);
  }

  lemma {:induction false} ReturnedPath(k: Config, s: Rx, item: Item, f: Flags, drained: bool)
    ensures var c := DoCredit(s, item, f);
            Finish(k, s.(cons := CReturned(item, f)), drained)
            == if item.Data? || f.noFin then DoDeliver(c, item, f) else Finish(k, c.(cons := CFin), drained)
  {
    var s1 := s.(cons := CReturned(item, f));
    var s2 := DoCredit(s, item, f);
    assert AppStep(k, s1, NextOf(s1, drained)) == s2 && AppStep(k, s2, NextOf(s2, drained)) == DoDeliver(s2, item, f);
    FinishStep(k, s1, drained);
    FinishStep(k, s2, drained);
  }

  lemma {:induction false} DataPath(k: Config, s: Rx, item: Item, f: Flags, drained: bool)
    requires item.Data?
    ensures var c := s.(avail := s.avail - Len(item), balance := s.balance - 1);
            Finish(k, s.(cons := CPopped(item, f)), drained)
            == if k.tcp then Finish(k, c.(cons := CReturned(item, f)), drained) else Return(c, GotData(item.id))
  {
    var s1 := s.(cons := CPopped(item, f));
    var s2 := s.(avail := s.avail - Len(item), cons := CSubtracted(item, f));
    assert AppStep(k, s1, NextOf(s1, drained)) == s2 && AppStep(k, s2, NextOf(s2, drained)) == DoRetire(k, s2, item, f);
    FinishStep(k, s1, drained);
    FinishStep(k, s2, drained);
  }

  lemma {:induction false} MarkerPath(k: Config, s: Rx, item: Item, f: Flags, drained: bool)
    requires item.Marker?
    ensures Finish(k, s.(cons := CPopped(item, f)), drained)
         == if item.err != Clsd then Return(s, Failed(item.err)) else Finish(k, s.(cons := CReturned(item, f)), drained)
  {
    FinishStep(k, s.(cons := CPopped(item, f)), drained);
  }

  lemma {:induction false} EmptyPath(k: Config, s: Rx, f: Flags, drained: bool)
    ensures Finish(k, s.(cons := CEmpty(f)), drained)
         == if s.pendingErr != Ok then Return(s.(pendingErr := Ok), Failed(s.pendingErr))
            else Return(s, Failed(if MboxClosed(s) then NotConn else WouldBlock))
  {
    FinishStep(k, s.(cons := CEmpty(f)), drained);
    FinishStep(k, s.(cons := CNoErr(f)), drained);
  }

  /** The call waits for a message. */
  predicate Waits(k: Config, s: Rx, f: Flags) {
    var s1 := DoBegin(k, s, f);
    s1.cons.CDecided? && s1.cons.block && s.box == []
  }

  /** A receive that nothing interrupts; if it waits, it ends with its timeout. */
  function RecvCall(k: Config, s: Rx, f: Flags, drained: bool): Rx {
    var s1 := DoBegin(k, s, f);
    if Waits(k, s, f) then Return(s1, Failed(Timeout)) else Finish(k, s1, drained)
  }

  /** What a receive returns, told from the state it starts in: the oldest message; without one
      the pending error, ERR_CONN after an error, ERR_WOULDBLOCK if it must not wait, and
      otherwise the timeout. */
  function Answer(k: Config, s: Rx, f: Flags): Result {
    if !s.valid then Failed(if !k.tcp && s.pendingErr != Ok then s.pendingErr else NotConn)
    else if k.tcp && s.finPending then FinAnswer(s)
    else if s.box != [] then
      match s.box[0]
      case Data(id, _) => GotData(id)
      case Marker(err) => if err != Clsd then Failed(err) else if f.noFin then Failed(WouldBlock) else FinAnswer(s)
    else if s.pendingErr != Ok then Failed(s.pendingErr)
    else if MboxClosed(s) then Failed(NotConn)
    else Failed(if k.nonblocking || f.dontblock then WouldBlock else Timeout)
  }

  /** The messages that are left in a mailbox that stays valid: a message is taken unless a
      deferred FIN comes first. */
  function BoxAfter(k: Config, s: Rx): seq<Item> {
    if !s.valid || (k.tcp && s.finPending) || s.box == [] then s.box else s.box[1..]
  }

  /** The call handles a FIN, deferred or from the mailbox. */
  predicate HandlesFin(k: Config, s: Rx, f: Flags) {
    s.valid && k.tcp && (s.finPending || (s.box != [] && s.box[0] == FIN && !f.noFin))
  }

  /** What is left of the error and of the FIN: a pending error is reported once, where a call
      finds no message or a FIN without a pcb; a FIN is deferred if the caller asks for it; and
      the mailbox goes only with a FIN. */
  ghost predicate Leaves(k: Config, s: Rx, f: Flags, drained: bool, t: Rx) {
    && (t.pendingErr == if (if s.valid then s.box == [] && !(k.tcp && s.finPending) else !k.tcp)
                           || (HandlesFin(k, s, f) && MboxClosed(s)) then Ok else s.pendingErr)
    && (t.finPending <==> (s.finPending && !(s.valid && k.tcp))
                          || (s.valid && !s.finPending && s.box != [] && s.box[0] == FIN && f.noFin))
    && (t.valid <==> s.valid && !(HandlesFin(k, s, f) && HasPcb(s) && drained))
    && t.errp == s.errp && t.prod == s.prod && t.cons.CIdle?
  }

  lemma {:induction false} TakenAnswer(k: Config, s: Rx, f: Flags, drained: bool)
    requires s.box != [] && s.valid && !(k.tcp && s.finPending) && (s.box[0].Marker? ==> k.tcp)
    ensures var t := Finish(k, DoFetch(s, f), drained);
            && t.log.results == s.log.results + [Answer(k, s, f)]
            && (t.valid ==> t.box == s.box[1..]) && Leaves(k, s, f, drained, t)
  {
    var item := s.box[0];
    var d := s.(box := s.box[1..], log := s.log.(got := s.log.got + [item]));
    assert DoFetch(s, f) == d.(cons := CPopped(item, f));
    if item.Data? {
      DataPath(k, d, item, f, drained);
      ReturnedPath(k, d.(avail := d.avail - Len(item), balance := d.balance - 1), item, f, drained);
    } else {
      MarkerPath(k, d, item, f, drained);
      ReturnedPath(k, d, item, f, drained);
      FinPath(k, DoCredit(d, item, f), drained);
    }
  }

  lemma {:induction false} EmptyAnswer(k: Config, s: Rx, f: Flags, drained: bool)
    requires s.box == [] && s.valid && !(k.tcp && s.finPending)
    requires k.nonblocking || f.dontblock || MboxClosed(s) || s.pendingErr != Ok
    ensures var t := Finish(k, DoFetch(s, f), drained);
            t.log.results == s.log.results + [Answer(k, s, f)] && t.box == s.box && Leaves(k, s, f, drained, t)
  {
    EmptyPath(k, s, f, drained);
  }

  /** The steps of a whole call add up to that answer. */
  lemma {:induction false} RecvCallAnswers(k: Config, s: Rx, f: Flags, drained: bool)
    requires (s.box != [] && s.box[0].Marker? ==> k.tcp) && s.cons.CIdle?
    ensures var t := RecvCall(k, s, f, drained);
            && t.log.results == s.log.results + [Answer(k, s, f)]
            && (t.valid ==> t.box == BoxAfter(k, s)) && Leaves(k, s, f, drained, t)
  {
    if s.valid && k.tcp && s.finPending {
      FinPath(k, s.(finPending := false), drained);
    } else if s.valid && !Waits(k, s, f) {
      FinishStep(k, DoBegin(k, s, f), drained);
      if s.box == [] {
        EmptyAnswer(k, s, f, drained);
      } else {
        TakenAnswer(k, s, f, drained);
      }
    }
  }

  /** Whole calls are runs of the machine, so everything proved of runs holds between calls. */
  lemma {:induction false} ReceiveCallKeeps(k: Config, s: Rx, item: Item)
    requires Inv(k, s) && k.cap > 0 && StackEnabled(k, s, Arrive(item))
    ensures Inv(k, ReceiveCall(k, s, item))
  {
    StackKeeps(k, s, Arrive(item));
    var s1 := StackStep(k, s, Arrive(item));
    if s1.prod.PChecked? {
      StackKeeps(k, s1, Post);
      var s2 := StackStep(k, s1, Post);
      if s2.prod.PPosted? {
        StackKeeps(k, s2, Add);
        StackKeeps(k, StackStep(k, s2, Add), Announce);
      }
    }
  }

  lemma {:induction false} ErrorCallKeeps(k: Config, s: Rx, err: Err)
    requires Inv(k, s) && k.cap > 0 && StackEnabled(k, s, SetError(err))
    ensures Inv(k, ErrorCall(k, s, err))
  {
    StackKeeps(k, s, SetError(err));
    StackKeeps(k, StackStep(k, s, SetError(err)), PostError);
  }

  lemma {:induction false} NextEnabled(k: Config, s: Rx, drained: bool)
    requires Phased(k, s) && StackIdle(s) && !s.cons.CIdle?
    requires s.cons.CDecided? && s.cons.block ==> s.box != []
    ensures AppEnabled(s, NextOf(s, drained))
    ensures var t := AppStep(k, s, NextOf(s, drained)); StackIdle(t) && !t.cons.CDecided? && Rank(t.cons) < Rank(s.cons)
  {
  }

  lemma {:induction false} FinishKeeps(k: Config, s: Rx, drained: bool)
    requires Inv(k, s) && StackIdle(s)
    requires s.cons.CDecided? && s.cons.block ==> s.box != []
    ensures Inv(k, Finish(k, s, drained))
    decreases Rank(s.cons)
  {
    if !s.cons.CIdle? {
      NextEnabled(k, s, drained);
      AppKeeps(k, s, NextOf(s, drained));
      FinishKeeps(k, AppStep(k, s, NextOf(s, drained)), drained);
    }
  }

  lemma {:induction false} RecvCallKeeps(k: Config, s: Rx, f: Flags, drained: bool)
    requires Inv(k, s) && StackIdle(s) && s.cons.CIdle?
    ensures Inv(k, RecvCall(k, s, f, drained))
  {
    AppKeeps(k, s, Begin(f));
    if Waits(k, s, f) {
      AppKeeps(k, DoBegin(k, s, f), GiveUpWaiting);
    } else {
      FinishKeeps(k, DoBegin(k, s, f), drained);
    }
  }

  // ------------------------------------------------------------------ the code

  lemma {:induction false} FrontOk(k: Config, s: Rx)
    requires Typed(k, s) && Ordered(s)
    ensures s.box != [] && s.box[0].Marker? ==> k.tcp
  {
    if s.box != [] {
      assert s.log.posted[|s.log.got|] == s.box[0];
    }
  }

  class Receiving {
    const k: Config
    var box: seq<Item>
    var valid: bool
    var avail: int
    var balance: int
    var finPending: bool
    var pendingErr: Err
    var mboxClosed: bool
    ghost var raised: Err
    ghost var log: Log

    ghost function View(): Rx
      reads this
    {
      Rx(box, valid, avail, balance, finPending, pendingErr, PIdle, CIdle,
         if mboxClosed then ErrDone(raised) else NoError, log)
    }

    constructor (k: Config)
      ensures this.k == k && View() == NewRx() && Inv(k, View())
    {
      this.k := k;
      box, valid, avail, balance, finPending, pendingErr, mboxClosed := [], true, 0, 0, false, Ok, false;
      raised, log := Ok, Log([], [], [], 0, false, 0, 0);
      new;
      NewRxOk(k);
    }

    /** `recv_udp`, `recv_raw` and `recv_tcp` */
    method OnReceive(item: Item) returns (posted: bool)
      requires Inv(k, View()) && k.cap > 0 && StackEnabled(k, View(), Arrive(item))
      modifies this
      ensures View() == old(ReceiveCall(k, View(), item)) && Inv(k, View())
      ensures box == old(box) + if posted then [item] else []
      ensures posted <==> old(valid) && |old(box)| < k.cap && (k.tcp || Bytes(old(box)) + Len(item) <= k.bufsize)
    {
      ReceiveCallKeeps(k, View(), item);
      posted := TryPost(item);
    }

    method TryPost(item: Item) returns (posted: bool)
      modifies this
      ensures View() == old(ReceiveCall(k, View(), item))
      ensures box == old(box) + if posted then [item] else []
      ensures posted <==> old(valid && |box| < k.cap && (k.tcp || avail + Len(item) <= k.bufsize))
    {
      if !valid {
        return false;
      }
      if !k.tcp && avail + Len(item) > k.bufsize {
        return false;
      }
      if |box| >= k.cap {
        return false;
      }
      box := box + [item];
      log := log.(posted := log.posted + [item]);
      avail := avail + Len(item);
      balance := balance + 1;
      return true;
    }

    /** `err_tcp` */
    method OnError(err: Err)
      requires Inv(k, View()) && k.cap > 0 && StackEnabled(k, View(), SetError(err))
      modifies this
      ensures View() == old(ErrorCall(k, View(), err)) && Inv(k, View())
      ensures pendingErr == err && mboxClosed && balance == old(balance) + 1
      ensures box == old(box) + if old(valid) && |old(box)| < k.cap then [Marker(err)] else []
    {
      ErrorPath(k, View(), err);
      ErrorCallKeeps(k, View(), err);
      RaiseError(err);
    }

    method RaiseError(err: Err)
      modifies this
      ensures View() == old(ErrorCall(k, View(), err))
    {
      ErrorPath(k, View(), err);
      pendingErr := err;
      mboxClosed, raised := true, err;
      balance := balance + 1;
      if valid && |box| < k.cap {
        box := box + [Marker(err)];
        log := log.(posted := log.posted + [Marker(err)]);
      }
    }

    /** `netconn_err` */
    method TakeErr() returns (err: Err)
      modifies `pendingErr
      ensures err == old(pendingErr) && pendingErr == Ok
    {
      err := pendingErr;
      pendingErr := Ok;
    }

    /** The way out of every call. */
    method Reply(r: Result) returns (r': Result)
      modifies `log
      ensures View() == old(Return(View(), r)) && r' == r
    {
      log := log.(results := log.results + [r]);
      return r;
    }

    /** `netconn_recv_data_tcp`, handling of a FIN */
    method HandleFin(drained: bool) returns (r: Result)
      modifies this
      ensures View() == old(Finish(k, View().(cons := CFin), drained))
      ensures log.results == old(log.results) + [r]
    {
      FinPath(k, View(), drained);
      balance := balance - 1;
      r := ShutReceive(drained);
    }

    /** The shutdown of the receive side; without a pcb it fails. */
    method ShutReceive(drained: bool) returns (r: Result)
      modifies this
      ensures View() == old(DoFinShut(View().(cons := CShut), drained))
      ensures log.results == old(log.results) + [r]
    {
      if mboxClosed {
        var err := TakeErr();
        r := Reply(Failed(if err != Ok then err else Rst));
      } else {
        if drained {
          valid, box := false, [];
        }
        r := Reply(Failed(Clsd));
      }
    }

    /** `lwip_netconn_do_recv`, unless the caller asked for it not to be called */
    method CreditWindow(item: Item, f: Flags)
      modifies `log
      ensures View() == old(DoCredit(View(), item, f)).(cons := CIdle)
    {
      if !f.noAutoRcvd {
        if !mboxClosed {
          var credits := DoRecv(if item.Data? then item.len else 1);
          log := if item.Data? then log.(credit := log.credit + Sum(credits))
                 else log.(finCredits := log.finCredits + Sum(credits));
        }
      } else {
        log := if item.Data? then log.(kept := log.kept + item.len) else log.(finKept := true);
      }
    }

    /** `netconn_recv_data_tcp` after `netconn_recv_data` returned ERR_OK */
    method AfterData(item: Item, f: Flags, drained: bool) returns (r: Result)
      modifies this
      ensures View() == old(Finish(k, View().(cons := CReturned(item, f)), drained))
      ensures log.results == old(log.results) + [r]
    {
      ReturnedPath(k, View(), item, f, drained);
      CreditWindow(item, f);
      if item.Data? {
        r := Reply(GotData(item.id));
      } else if f.noFin {
        finPending := true;
        r := Reply(Failed(WouldBlock));
      } else {
        r := HandleFin(drained);
      }
    }

    /** `recv_avail` and the RCVMINUS event */
    method CountOut(item: Item)
      modifies `avail, `balance
      ensures View() == old(View().(avail := avail - Len(item), balance := balance - 1))
    {
      avail := avail - Len(item);
      balance := balance - 1;
    }

    /** `netconn_recv_data` with a packet */
    method WithData(item: Item, f: Flags, drained: bool) returns (r: Result)
      requires item.Data?
      modifies this
      ensures View() == old(Finish(k, View().(cons := CPopped(item, f)), drained))
      ensures log.results == old(log.results) + [r]
    {
      DataPath(k, View(), item, f, drained);
      CountOut(item);
      if k.tcp {
        r := AfterData(item, f, drained);
      } else {
        r := Reply(GotData(item.id));
      }
    }

    /** `netconn_recv_data` with a marker */
    method WithMarker(item: Item, f: Flags, drained: bool) returns (r: Result)
      requires item.Marker? && (item.err == Clsd ==> k.tcp)
      modifies this
      ensures View() == old(Finish(k, View().(cons := CPopped(item, f)), drained))
      ensures log.results == old(log.results) + [r]
    {
      MarkerPath(k, View(), item, f, drained);
      if item.err != Clsd {
        r := Reply(Failed(item.err));
      } else {
        r := AfterData(item, f, drained);
      }
    }

    /** `netconn_recv_data` without a message */
    method WithoutMessage(ghost f: Flags, drained: bool) returns (r: Result)
      modifies this
      ensures View() == old(Finish(k, View().(cons := CEmpty(f)), drained))
      ensures log.results == old(log.results) + [r]
    {
      EmptyPath(k, View(), f, drained);
      var err := TakeErr();
      if err != Ok {
        r := Reply(Failed(err));
      } else if mboxClosed {
        r := Reply(Failed(NotConn));
      } else {
        r := Reply(Failed(WouldBlock));
      }
    }

    /** `netconn_recv_data`, and around it `netconn_recv_data_tcp`. A blocking call on an empty
        mailbox ends with its timeout. */
    method Receive(f: Flags, drained: bool) returns (r: Result)
      requires Inv(k, View())
      modifies this
      ensures View() == old(RecvCall(k, View(), f, drained)) && Inv(k, View())
      ensures log.results == old(log.results) + [r] && r == old(Answer(k, View(), f))
      ensures valid ==> box == old(BoxAfter(k, View()))
      ensures Leaves(k, old(View()), f, drained, View())
    {
      RecvCallKeeps(k, View(), f, drained);
      FrontOk(k, View());
      RecvCallAnswers(k, View(), f, drained);
      ghost var results := log.results;
      r := RunReceive(f, drained);
      assert (results + [r])[|results|] == r;
    }

    method RunReceive(f: Flags, drained: bool) returns (r: Result)
      requires box != [] && box[0].Marker? ==> k.tcp
      modifies this
      ensures View() == old(RecvCall(k, View(), f, drained))
      ensures log.results == old(log.results) + [r]
    {
      if !valid {
        r := WithoutMailbox(f);
      } else if k.tcp && finPending {
        finPending := false;
        r := HandleFin(drained);
      } else if box == [] {
        if k.nonblocking || f.dontblock || mboxClosed || pendingErr != Ok {
          r := WithoutMessage(f, drained);
        } else {
          r := Reply(Failed(Timeout));
        }
      } else {
        r := TakeMessage(f, drained);
      }
    }

    /** A receive after the mailbox was drained. */
    method WithoutMailbox(f: Flags) returns (r: Result)
      requires !valid
      modifies this
      ensures View() == old(DoBegin(k, View(), f))
      ensures log.results == old(log.results) + [r]
    {
      if k.tcp {
        r := Reply(Failed(NotConn));
      } else {
        var err := TakeErr();
        r := Reply(Failed(if err == Ok then NotConn else err));
      }
    }

    /** The fetch from a mailbox that holds something. */
    method TakeMessage(f: Flags, drained: bool) returns (r: Result)
      requires box != [] && (box[0].Marker? && box[0].err == Clsd ==> k.tcp)
      modifies this
      ensures View() == old(Finish(k, DoFetch(View(), f), drained))
      ensures log.results == old(log.results) + [r]
    {
      var item := box[0];
      box := box[1..];
      log := log.(got := log.got + [item]);
      if item.Marker? {
        r := WithMarker(item, f, drained);
      } else {
        r := WithData(item, f, drained);
      }
    }
  }
}
