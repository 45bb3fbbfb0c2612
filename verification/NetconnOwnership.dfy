/** Who owns what is posted to the mailboxes of a netconn (lwip/src/api/api_msg.c and
    api_lib.c): packets, and connections waiting to be accepted, which have mailboxes of their
    own. */
module NetconnOwnership {
  import opened Lwip

  /** A message in recvmbox: a packet, or the address of one of the error markers. */
  datatype Item = Data(id: nat) | Marker

  /** No pcb; one that was never connected; one in use; one that listens. */
  datatype Pcb = NoPcb | Unused | Live | Listening

  /** The parts of a netconn that own something. A mailbox is None when it is not valid. */
  datatype Conn = Conn(pcb: Pcb, recvmbox: Option<seq<Item>>, acceptmbox: Option<Pending>)

  /** The messages in acceptmbox, oldest first: error markers and netconns. */
  datatype Pending = Nil | ErrMarker(err: Err, rest: Pending) | Waiting(id: nat, conn: Conn, rest: Pending)

  /** Something that has to be handed over or released: a packet or a netconn. */
  datatype Token = Packet(id: nat) | Netconn(id: nat)

  function Packets(items: seq<Item>): multiset<Token> {
    if items == [] then multiset{}
    else (if items[0].Data? then multiset{Packet(items[0].id)} else multiset{}) + Packets(items[1..])
  }

  function RecvTokens(c: Conn): multiset<Token> {
    if c.recvmbox.Some? then Packets(c.recvmbox.value) else multiset{}
  }

  /** Everything in the mailboxes of a netconn, and in those of the netconns waiting there. */
  function Tokens(c: Conn): multiset<Token> {
    RecvTokens(c) + if c.acceptmbox.Some? then PendingTokens(c.acceptmbox.value) else multiset{}
  }

  function PendingTokens(p: Pending): multiset<Token> {
    match p
    case Nil => multiset{}
    case ErrMarker(_, rest) => PendingTokens(rest)
    case Waiting(id, conn, rest) => multiset{Netconn(id)} + Tokens(conn) + PendingTokens(rest)
  }

  /** What comes with the oldest message. */
  function FrontTokens(p: Pending): multiset<Token> {
    if p.Waiting? then multiset{Netconn(p.id)} + Tokens(p.conn) else multiset{}
  }

  /** The waiting netconns whose pcb is still there. */
  function Abortable(p: Pending): seq<nat>
    decreases p
  {
    match p
    case Nil => []
    case ErrMarker(_, rest) => Abortable(rest)
    case Waiting(id, conn, rest) => AbortableIn(id, conn) + Abortable(rest)
  }

  function AbortableIn(id: nat, c: Conn): seq<nat>
    decreases c
  {
    (if c.acceptmbox.Some? then Abortable(c.acceptmbox.value) else []) + (if c.pcb.NoPcb? then [] else [id])
  }

  // ------------------------------------------------------------------ draining

  /** What `netconn_free` asserts. */
  predicate Freeable(c: Conn) { c.pcb.NoPcb? && c.recvmbox == None && c.acceptmbox == None }

  function PostRecv(c: Conn, item: Item, room: bool): Conn {
    if c.recvmbox.Some? && room then c.(recvmbox := Some(c.recvmbox.value + [item])) else c
  }

  function Append(p: Pending, q: Pending): Pending {
    match p
    case Nil => q
    case ErrMarker(err, rest) => ErrMarker(err, Append(rest, q))
    case Waiting(id, conn, rest) => Waiting(id, conn, Append(rest, q))
  }

  function PostAccept(c: Conn, message: Pending, room: bool): Conn {
    if c.acceptmbox.Some? && room then c.(acceptmbox := Some(Append(c.acceptmbox.value, message))) else c
  }

  /** `err_tcp`: the pcb is gone, and a marker goes to each valid mailbox that has room. */
  function OnError(c: Conn, err: Err, recvRoom: bool, acceptRoom: bool): Conn {
    PostAccept(PostRecv(c.(pcb := NoPcb), Marker, recvRoom), ErrMarker(err, Nil), acceptRoom)
  }

  /** The first loop of `netconn_drain`. */
  method DrainRecv(items: seq<Item>) returns (released: multiset<Token>)
    ensures released == Packets(items)
  {
    released := multiset{};
    var box := items;
    while box != []
      invariant released + Packets(box) == Packets(items)
      decreases |box|
    {
      var mem := box[0];
      box := box[1..];
      if mem.Data? {
        released := released + multiset{Packet(mem.id)};
      }
    }
  }

  /** A waiting netconn is drained, its pcb aborted and the netconn freed. Aborting calls
      `err_tcp`, which finds no mailbox to post to because the netconn was drained before. */
  method DropWaiting(id: nat, conn: Conn) returns (released: multiset<Token>, aborted: seq<nat>)
    ensures released == FrontTokens(Waiting(id, conn, Nil)) && aborted == AbortableIn(id, conn)
    decreases conn, 1
  {
    var newconn;
    newconn, released, aborted := Drain(conn);
    if !newconn.pcb.NoPcb? {
      aborted := aborted + [id];
      newconn := OnError(newconn, Abrt, true, true);
    }
    assert Freeable(newconn);
    released := released + multiset{Netconn(id)};
  }

  lemma {:induction false} Regroup(a: multiset<Token>, b: multiset<Token>, c: multiset<Token>)
    ensures a + b + c == a + (b + c)
  {
  }

  lemma {:induction false} TakeFront(box: Pending, released: multiset<Token>, aborted: seq<nat>)
    requires !box.Nil?
    ensures released + FrontTokens(box) + PendingTokens(box.rest) == released + PendingTokens(box)
    ensures box.ErrMarker? ==> PendingTokens(box.rest) == PendingTokens(box) && Abortable(box.rest) == Abortable(box)
    ensures box.Waiting? ==> aborted + AbortableIn(box.id, box.conn) + Abortable(box.rest) == aborted + Abortable(box)
  {
    Regroup(released, FrontTokens(box), PendingTokens(box.rest));
    assert FrontTokens(box) + PendingTokens(box.rest) == PendingTokens(box);
  }

  /** One message of the second loop. */
  method DrainFront(box: Pending, released: multiset<Token>, aborted: seq<nat>)
      returns (released': multiset<Token>, aborted': seq<nat>)
    requires !box.Nil?
    ensures released' + PendingTokens(box.rest) == released + PendingTokens(box)
    ensures aborted' + Abortable(box.rest) == aborted + Abortable(box)
    decreases box, 0
  {
    TakeFront(box, released, aborted);
    if box.Waiting? {
      var freed, gone := DropWaiting(box.id, box.conn);
      released', aborted' := released + freed, aborted + gone;
    } else {
      released', aborted' := released, aborted;
    }
  }

  /** The second loop. */
  method DrainAccept(p: Pending) returns (released: multiset<Token>, aborted: seq<nat>)
    ensures released == PendingTokens(p) && aborted == Abortable(p)
    decreases p, 1
  {
    released, aborted := multiset{}, [];
    var box := p;
    while !box.Nil?
      invariant box == p || box < p
      invariant released + PendingTokens(box) == PendingTokens(p)
      invariant aborted + Abortable(box) == Abortable(p)
      decreases box
    {
      released, aborted := DrainFront(box, released, aborted);
      box := box.rest;
    }
  }

  /** `netconn_drain`: leaves both mailboxes empty and invalid and releases exactly what was in
      them, at every level, each thing once and no marker; aborts the pcb of every waiting
      netconn that still has one. */
  method Drain(c: Conn) returns (drained: Conn, released: multiset<Token>, aborted: seq<nat>)
    ensures drained == Conn(c.pcb, None, None)
    ensures released == Tokens(c)
    ensures aborted == if c.acceptmbox.Some? then Abortable(c.acceptmbox.value) else []
    decreases c, 0
  {
    drained, released, aborted := c, multiset{}, [];
    if drained.recvmbox.Some? {
      released := DrainRecv(drained.recvmbox.value);
      drained := drained.(recvmbox := None);
    }
    if drained.acceptmbox.Some? {
      var more, gone := DrainAccept(c.acceptmbox.value);
      released, aborted := released + more, gone;
      drained := drained.(acceptmbox := None);
    }
  }

  // ------------------------------------------------------------------ operations

  /** A netconn, and what was created, handed to the application and released so far. */
  datatype Sys = Sys(conn: Conn, created: multiset<Token>, handed: multiset<Token>, released: multiset<Token>)

  /** The owned thing is created and put into a mailbox, or released at once. */
  function Create(s: Sys, t: Token, conn: Conn): Sys { s.(conn := conn, created := s.created + multiset{t}) }

  function CreateAndRelease(s: Sys, t: Token): Sys {
    s.(created := s.created + multiset{t}, released := s.released + multiset{t})
  }

  /** `recv_tcp`: without a mailbox the data is dropped; without room TCP keeps it. */
  function RecvTcp(s: Sys, item: Item, room: bool): Sys {
    if s.conn.recvmbox == None then
      if item.Data? then CreateAndRelease(s, Packet(item.id)) else s
    else if !room then s
    else if item.Data? then Create(s, Packet(item.id), PostRecv(s.conn, item, true))
    else s.(conn := PostRecv(s.conn, item, true))
  }

  /** `recv_udp` owns the packet from the start. */
  function RecvUdp(s: Sys, id: nat, fits: bool, netbuf: bool, room: bool): Sys {
    if s.conn.recvmbox == None || !fits || !netbuf || !room then CreateAndRelease(s, Packet(id))
    else Create(s, Packet(id), PostRecv(s.conn, Data(id), true))
  }

  /** `recv_raw` owns only the copy it makes. */
  function RecvRaw(s: Sys, id: nat, fits: bool, cloned: bool, netbuf: bool, room: bool): Sys {
    if s.conn.recvmbox == None || !fits || !cloned then s
    else if !netbuf || !room then CreateAndRelease(s, Packet(id))
    else Create(s, Packet(id), PostRecv(s.conn, Data(id), true))
  }

  /** `accept_function`: a netconn that does not fit into the mailbox is freed again. */
  function Accept(s: Sys, id: nat, pcb: bool, alloc: bool, room: bool): Sys {
    if s.conn.acceptmbox == None then s
    else if !pcb || !alloc then s.(conn := PostAccept(s.conn, ErrMarker(Abrt, Nil), room))
    else if !room then CreateAndRelease(s, Netconn(id))
    else Create(s, Netconn(id), PostAccept(s.conn, Waiting(id, Conn(Live, Some([]), None), Nil), true))
  }

  /** A receiver takes the oldest message. */
  function Fetch(s: Sys): Sys {
    if s.conn.recvmbox == None || s.conn.recvmbox.value == [] then s
    else
      var item := s.conn.recvmbox.value[0];
      var s' := s.(conn := s.conn.(recvmbox := Some(s.conn.recvmbox.value[1..])));
      if item.Data? then s'.(handed := s.handed + multiset{Packet(item.id)}) else s'
  }

  /** `netconn_accept` hands over a netconn together with what is queued in it. */
  function FetchAccept(s: Sys): Sys {
    if s.conn.acceptmbox == None || s.conn.acceptmbox.value.Nil? then s
    else
      var box := s.conn.acceptmbox.value;
      s.(conn := s.conn.(acceptmbox := Some(box.rest)), handed := s.handed + FrontTokens(box))
  }

  /** `lwip_netconn_do_listen`: recvmbox is freed without being drained. */
  function Listen(s: Sys, listens: bool, mbox: bool): Sys {
    if !s.conn.pcb.Unused? || !listens then s
    else
      var c := s.conn.(recvmbox := None);
      if c.acceptmbox == None && !mbox then s.(conn := c.(pcb := NoPcb))
      else s.(conn := c.(pcb := Listening, acceptmbox := if c.acceptmbox == None then Some(Nil) else c.acceptmbox))
  }

  function DrainAll(s: Sys): Sys {
    s.(conn := Conn(s.conn.pcb, None, None), released := s.released + Tokens(s.conn))
  }

  // ------------------------------------------------------------------ waiting netconns

  /** The `i`-th message of an acceptmbox, counted in netconns only. */
  predicate HasWaiting(p: Pending, i: nat) {
    match p
    case Nil => false
    case ErrMarker(_, rest) => HasWaiting(rest, i)
    case Waiting(_, _, rest) => i == 0 || HasWaiting(rest, i - 1)
  }

  function GetWaiting(p: Pending, i: nat): Conn
    requires HasWaiting(p, i)
  {
    match p
    case ErrMarker(_, rest) => GetWaiting(rest, i)
    case Waiting(_, conn, rest) => if i == 0 then conn else GetWaiting(rest, i - 1)
  }

  function SetWaiting(p: Pending, i: nat, c: Conn): Pending
    requires HasWaiting(p, i)
  {
    match p
    case ErrMarker(err, rest) => ErrMarker(err, SetWaiting(rest, i, c))
    case Waiting(id, conn, rest) =>
      if i == 0 then Waiting(id, c, rest) else Waiting(id, conn, SetWaiting(rest, i - 1, c))
  }

  /** TCP delivers to a netconn that waits to be accepted. */
  predicate CanReach(s: Sys, i: nat) { s.conn.acceptmbox.Some? && HasWaiting(s.conn.acceptmbox.value, i) }

  function Reach(s: Sys, i: nat): Sys
    requires CanReach(s, i)
  {
    s.(conn := GetWaiting(s.conn.acceptmbox.value, i))
  }

  function PutBack(s: Sys, i: nat, inner: Sys): Sys
    requires CanReach(s, i)
  {
    inner.(conn := s.conn.(acceptmbox := Some(SetWaiting(s.conn.acceptmbox.value, i, inner.conn))))
  }

  // ------------------------------------------------------------------ runs

  /** What TCP can do to a connection. */
  datatype TcpEvent = Deliver(item: Item, room: bool) | Abort(err: Err, recvRoom: bool, acceptRoom: bool)

  function TcpStep(s: Sys, e: TcpEvent): Sys {
    match e
    case Deliver(item, room) => RecvTcp(s, item, room)
    case Abort(err, recvRoom, acceptRoom) => s.(conn := OnError(s.conn, err, recvRoom, acceptRoom))
  }

  datatype Event =
    | Tcp(tcp: TcpEvent)
    | ToWaiting(i: nat, tcp: TcpEvent)
    | Udp(id: nat, fits: bool, netbuf: bool, room: bool)
    | Raw(id: nat, fits: bool, cloned: bool, netbuf: bool, room: bool)
    | NewConnection(id: nat, pcb: bool, alloc: bool, room: bool)
    | Connect
    | StartListen(listens: bool, mbox: bool)
    | TakeMessage
    | TakeConnection
    | DrainBoth

  function Step(s: Sys, e: Event): Sys {
    match e
    case Tcp(tcp) => TcpStep(s, tcp)
    case ToWaiting(i, tcp) => if CanReach(s, i) then PutBack(s, i, TcpStep(Reach(s, i), tcp)) else s
    case Udp(id, fits, netbuf, room) => RecvUdp(s, id, fits, netbuf, room)
    case Raw(id, fits, cloned, netbuf, room) => RecvRaw(s, id, fits, cloned, netbuf, room)
    case NewConnection(id, pcb, alloc, room) => Accept(s, id, pcb, alloc, room)
    case Connect => if s.conn.pcb.Unused? then s.(conn := s.conn.(pcb := Live)) else s
    case StartListen(listens, mbox) => Listen(s, listens, mbox)
    case TakeMessage => Fetch(s)
    case TakeConnection => FetchAccept(s)
    case DrainBoth => DrainAll(s)
  }

  /** Packets come only through a pcb in use; everything else can happen any time. */
  ghost predicate StepOk(s: Sys, e: Event) {
    match e
    case Tcp(tcp) => s.conn.pcb.Live? || (s.conn.pcb.Listening? && tcp.Abort?)
    case Udp(_, _, _, _) => s.conn.pcb.Live?
    case Raw(_, _, _, _, _) => s.conn.pcb.Live?
    case NewConnection(_, _, _, _) => s.conn.pcb.Listening?
    case _ => true
  }

  function Run(s: Sys, es: seq<Event>): Sys
    decreases |es|
  {
    if es == [] then s else Run(Step(s, es[0]), es[1..])
  }

  ghost predicate RunOk(s: Sys, es: seq<Event>)
    decreases |es|
  {
    es == [] || (StepOk(s, es[0]) && RunOk(Step(s, es[0]), es[1..]))
  }

  // How often one thing is in the mailboxes.

  function CountItems(items: seq<Item>, x: Token): nat {
    if items == [] then 0
    else (if items[0].Data? && x == Packet(items[0].id) then 1 else 0) + CountItems(items[1..], x)
  }

  function CountRecv(c: Conn, x: Token): nat { if c.recvmbox.Some? then CountItems(c.recvmbox.value, x) else 0 }

  function Count(c: Conn, x: Token): nat {
    CountRecv(c, x) + if c.acceptmbox.Some? then CountPending(c.acceptmbox.value, x) else 0
  }

  function CountPending(p: Pending, x: Token): nat {
    match p
    case Nil => 0
    case ErrMarker(_, rest) => CountPending(rest, x)
    case Waiting(id, conn, rest) => (if x == Netconn(id) then 1 else 0) + Count(conn, x) + CountPending(rest, x)
  }

  lemma {:induction false} ItemsCounted(items: seq<Item>, x: Token)
    ensures Packets(items)[x] == CountItems(items, x)
    decreases |items|
  {
    if items != [] {
      ItemsCounted(items[1..], x);
    }
  }

  lemma {:induction false} Counted(c: Conn, x: Token)
    ensures RecvTokens(c)[x] == CountRecv(c, x) && Tokens(c)[x] == Count(c, x)
    decreases c
  {
    if c.recvmbox.Some? {
      ItemsCounted(c.recvmbox.value, x);
    }
    if c.acceptmbox.Some? {
      PendingCounted(c.acceptmbox.value, x);
    }
  }

  lemma {:induction false} PendingCounted(p: Pending, x: Token)
    ensures PendingTokens(p)[x] == CountPending(p, x)
    decreases p
  {
    match p {
      case Nil =>
      case ErrMarker(_, rest) => PendingCounted(rest, x);
      case Waiting(_, conn, rest) =>
        Counted(conn, x);
        PendingCounted(rest, x);
    }
  }

  lemma {:induction false} SetWaitingCount(p: Pending, i: nat, c: Conn, x: Token)
    requires HasWaiting(p, i)
    ensures CountPending(SetWaiting(p, i, c), x) + Count(GetWaiting(p, i), x) == CountPending(p, x) + Count(c, x)
    decreases p
  {
    match p {
      case ErrMarker(_, rest) => SetWaitingCount(rest, i, c, x);
      case Waiting(id, conn, rest) =>
        if i > 0 {
          SetWaitingCount(rest, i - 1, c, x);
        }
    }
  }

  /** How often `x` is with the application, released or in a mailbox, beyond how often it was
      created. */
  function Balance(s: Sys, x: Token): int {
    s.handed[x] as int + s.released[x] + Count(s.conn, x) - s.created[x]
  }

  lemma {:induction false} ItemsAppend(a: seq<Item>, item: Item, x: Token)
    ensures CountItems(a + [item], x) == CountItems(a, x) + if item.Data? && x == Packet(item.id) then 1 else 0
    decreases |a|
  {
    if a == [] {
      assert a + [item] == [item];
    } else {
      assert (a + [item])[1..] == a[1..] + [item];
      ItemsAppend(a[1..], item, x);
    }
  }

  lemma {:induction false} PendingAppend(p: Pending, q: Pending, x: Token)
    ensures CountPending(Append(p, q), x) == CountPending(p, x) + CountPending(q, x)
    decreases p
  {
    match p {
      case Nil =>
      case ErrMarker(_, rest) => PendingAppend(rest, q, x);
      case Waiting(_, _, rest) => PendingAppend(rest, q, x);
    }
  }

  lemma {:induction false} PostRecvCount(c: Conn, item: Item, room: bool, x: Token)
    ensures Count(PostRecv(c, item, room), x)
            == Count(c, x) + if c.recvmbox.Some? && room && item.Data? && x == Packet(item.id) then 1 else 0
  {
    if c.recvmbox.Some? {
      ItemsAppend(c.recvmbox.value, item, x);
    }
  }

  lemma {:induction false} PostAcceptCount(c: Conn, message: Pending, room: bool, x: Token)
    ensures Count(PostAccept(c, message, room), x)
            == Count(c, x) + if c.acceptmbox.Some? && room then CountPending(message, x) else 0
  {
    if c.acceptmbox.Some? {
      PendingAppend(c.acceptmbox.value, message, x);
    }
  }

  lemma {:induction false} CreateBalance(s: Sys, t: Token, conn: Conn, x: Token)
    requires Count(conn, x) == Count(s.conn, x) + if x == t then 1 else 0
    ensures Balance(Create(s, t, conn), x) == Balance(s, x)
  {
  }

  lemma {:induction false} CreateAndReleaseBalance(s: Sys, t: Token, x: Token)
    ensures Balance(CreateAndRelease(s, t), x) == Balance(s, x)
  {
  }

  lemma {:induction false} MoveBalance(s: Sys, conn: Conn, x: Token)
    requires Count(conn, x) == Count(s.conn, x)
    ensures Balance(s.(conn := conn), x) == Balance(s, x)
  {
  }

  lemma {:induction false} RecvBalance(s: Sys, item: Item, room: bool, x: Token)
    ensures Balance(RecvTcp(s, item, room), x) == Balance(s, x)
  {
    if s.conn.recvmbox == None {
      if item.Data? {
        CreateAndReleaseBalance(s, Packet(item.id), x);
      }
    } else if room {
      PostRecvCount(s.conn, item, true, x);
      if item.Data? {
        CreateBalance(s, Packet(item.id), PostRecv(s.conn, item, true), x);
      } else {
        MoveBalance(s, PostRecv(s.conn, item, true), x);
      }
    }
  }

  lemma {:induction false} ErrorCount(c: Conn, err: Err, recvRoom: bool, acceptRoom: bool, x: Token)
    ensures Count(OnError(c, err, recvRoom, acceptRoom), x) == Count(c, x)
  {
    var d := PostRecv(c.(pcb := NoPcb), Marker, recvRoom);
    PostRecvCount(c.(pcb := NoPcb), Marker, recvRoom, x);
    PostAcceptCount(d, ErrMarker(err, Nil), acceptRoom, x);
  }

  lemma {:induction false} TcpStepBalance(s: Sys, e: TcpEvent, x: Token)
    ensures Balance(TcpStep(s, e), x) == Balance(s, x)
  {
    match e {
      case Deliver(item, room) => RecvBalance(s, item, room, x);
      case Abort(err, recvRoom, acceptRoom) =>
        ErrorCount(s.conn, err, recvRoom, acceptRoom, x);
        MoveBalance(s, OnError(s.conn, err, recvRoom, acceptRoom), x);
    }
  }

  /** A step of a waiting netconn keeps the balance of the whole: its mailboxes are part of it. */
  lemma {:induction false} ToWaitingBalance(s: Sys, i: nat, e: TcpEvent, x: Token)
    requires CanReach(s, i)
    ensures Balance(PutBack(s, i, TcpStep(Reach(s, i), e)), x) == Balance(s, x)
  {
    var inner := Reach(s, i);
    TcpStepBalance(inner, e, x);
    SetWaitingCount(s.conn.acceptmbox.value, i, TcpStep(inner, e).conn, x);
  }

  lemma {:induction false} AcceptBalance(s: Sys, id: nat, pcb: bool, alloc: bool, room: bool, x: Token)
    ensures Balance(Accept(s, id, pcb, alloc, room), x) == Balance(s, x)
  {
    var newconn := Conn(Live, Some([]), None);
    if s.conn.acceptmbox.Some? {
      if !pcb || !alloc {
        PostAcceptCount(s.conn, ErrMarker(Abrt, Nil), room, x);
        MoveBalance(s, PostAccept(s.conn, ErrMarker(Abrt, Nil), room), x);
      } else if !room {
        CreateAndReleaseBalance(s, Netconn(id), x);
      } else {
        PostAcceptCount(s.conn, Waiting(id, newconn, Nil), true, x);
        CreateBalance(s, Netconn(id), PostAccept(s.conn, Waiting(id, newconn, Nil), true), x);
      }
    }
  }

  lemma {:induction false} ListenCount(s: Sys, mbox: bool, x: Token)
    requires s.conn.pcb.Unused?
    ensures Count(Listen(s, true, mbox).conn, x) == Count(s.conn, x) - CountRecv(s.conn, x)
  {
    assert CountPending(Nil, x) == 0;
  }

  /** Listening frees recvmbox without draining it: nothing is lost if and only if no packet is
      in it. */
  lemma {:induction false} ListenLosesIff(s: Sys, mbox: bool)
    requires s.conn.pcb.Unused?
    ensures (forall x :: Balance(Listen(s, true, mbox), x) == Balance(s, x)) <==> RecvTokens(s.conn) == multiset{}
  {
    var s' := Listen(s, true, mbox);
    forall x ensures Balance(s', x) == Balance(s, x) - RecvTokens(s.conn)[x] {
      Counted(s.conn, x);
      ListenCount(s, mbox, x);
    }
    if RecvTokens(s.conn) != multiset{} {
      var x :| x in RecvTokens(s.conn);
      assert Balance(s', x) != Balance(s, x);
    }
  }

  /** In every run listening finds recvmbox empty: a pcb that was never connected received
      nothing. */
  ghost predicate UnusedIsEmpty(c: Conn) { c.pcb.Unused? ==> c.recvmbox == None || c.recvmbox == Some([]) }

  lemma {:induction false} StepUnused(s: Sys, e: Event)
    requires UnusedIsEmpty(s.conn) && StepOk(s, e)
    ensures UnusedIsEmpty(Step(s, e).conn)
  {
    match e {
      case ToWaiting(i, tcp) =>
      case _ =>
    }
  }

  lemma {:induction false} PacketBalance(s: Sys, id: nat, fits: bool, cloned: bool, netbuf: bool, room: bool, x: Token)
    ensures Balance(RecvUdp(s, id, fits, netbuf, room), x) == Balance(s, x)
    ensures Balance(RecvRaw(s, id, fits, cloned, netbuf, room), x) == Balance(s, x)
  {
    CreateAndReleaseBalance(s, Packet(id), x);
    if s.conn.recvmbox.Some? {
      PostRecvCount(s.conn, Data(id), true, x);
      CreateBalance(s, Packet(id), PostRecv(s.conn, Data(id), true), x);
    }
  }

  lemma {:induction false} FetchBalance(s: Sys, x: Token)
    ensures Balance(Fetch(s), x) == Balance(s, x)
  {
  }

  lemma {:induction false} FetchAcceptBalance(s: Sys, x: Token)
    ensures Balance(FetchAccept(s), x) == Balance(s, x)
  {
    if s.conn.acceptmbox.Some? && !s.conn.acceptmbox.value.Nil? {
      FrontCounted(s.conn.acceptmbox.value, x);
    }
  }

  lemma {:induction false} FrontCounted(box: Pending, x: Token)
    requires !box.Nil?
    ensures CountPending(box, x) == FrontTokens(box)[x] + CountPending(box.rest, x)
  {
    if box.Waiting? {
      Counted(box.conn, x);
    }
  }

  lemma {:induction false} ListenBalance(s: Sys, listens: bool, mbox: bool, x: Token)
    requires UnusedIsEmpty(s.conn)
    ensures Balance(Listen(s, listens, mbox), x) == Balance(s, x)
  {
    if s.conn.pcb.Unused? && listens {
      ListenCount(s, mbox, x);
      MoveBalance(s, Listen(s, true, mbox).conn, x);
    }
  }

  lemma {:induction false} DrainBalance(s: Sys, x: Token)
    ensures Balance(DrainAll(s), x) == Balance(s, x)
  {
    Counted(s.conn, x);
  }

  lemma {:induction false} StackBalance(s: Sys, e: Event, x: Token)
    requires e.Tcp? || e.ToWaiting? || e.Udp? || e.Raw? || e.NewConnection?
    ensures Balance(Step(s, e), x) == Balance(s, x)
  {
    match e {
      case Tcp(tcp) => TcpStepBalance(s, tcp, x);
      case ToWaiting(i, tcp) =>
        if CanReach(s, i) {
          ToWaitingBalance(s, i, tcp, x);
        }
      case Udp(id, fits, netbuf, room) => PacketBalance(s, id, fits, true, netbuf, room, x);
      case Raw(id, fits, cloned, netbuf, room) => PacketBalance(s, id, fits, cloned, netbuf, room, x);
      case NewConnection(id, pcb, alloc, room) => AcceptBalance(s, id, pcb, alloc, room, x);
    }
  }

  lemma {:induction false} PcbBalance(s: Sys, e: Event, x: Token)
    requires UnusedIsEmpty(s.conn) && (e.Connect? || e.StartListen?)
    ensures Balance(Step(s, e), x) == Balance(s, x)
  {
    if e.Connect? {
      MoveBalance(s, s.conn.(pcb := Live), x);
    } else {
      ListenBalance(s, e.listens, e.mbox, x);
    }
  }

  lemma {:induction false} AppBalance(s: Sys, e: Event, x: Token)
    requires e.TakeMessage? || e.TakeConnection? || e.DrainBoth?
    ensures Balance(Step(s, e), x) == Balance(s, x)
  {
    if e.TakeMessage? {
      FetchBalance(s, x);
    } else if e.TakeConnection? {
      FetchAcceptBalance(s, x);
    } else {
      DrainBalance(s, x);
    }
  }

  lemma {:induction false} StepBalance(s: Sys, e: Event, x: Token)
    requires UnusedIsEmpty(s.conn)
    ensures Balance(Step(s, e), x) == Balance(s, x)
  {
    if e.Tcp? || e.ToWaiting? || e.Udp? || e.Raw? || e.NewConnection? {
      StackBalance(s, e, x);
    } else if e.Connect? || e.StartListen? {
      PcbBalance(s, e, x);
    } else {
      AppBalance(s, e, x);
    }
  }

  lemma {:induction false} RunBalance(s: Sys, es: seq<Event>, x: Token)
    requires UnusedIsEmpty(s.conn) && RunOk(s, es)
    ensures Balance(Run(s, es), x) == Balance(s, x)
    decreases |es|
  {
    if es != [] {
      StepBalance(s, es[0], x);
      StepUnused(s, es[0]);
      RunBalance(Step(s, es[0]), es[1..], x);
    }
  }

  /** Exactly once: in every run, from a netconn in any condition, everything that was in its
      mailboxes at the start or came in later is handed to the application, released or still
      in a mailbox, and in just one of these places as often as it was created. */
  lemma {:induction false} OwnedExactlyOnce(c: Conn, es: seq<Event>)
    requires UnusedIsEmpty(c)
    requires RunOk(Sys(c, multiset{}, multiset{}, multiset{}), es)
    ensures var s := Run(Sys(c, multiset{}, multiset{}, multiset{}), es);
            Tokens(c) + s.created == s.handed + s.released + Tokens(s.conn)
  {
    var s0 := Sys(c, multiset{}, multiset{}, multiset{});
    var s := Run(s0, es);
    forall x: Token ensures (Tokens(c) + s.created)[x] == (s.handed + s.released + Tokens(s.conn))[x] {
      RunBalance(s0, es, x);
      Counted(c, x);
      Counted(s.conn, x);
    }
  }

  // ------------------------------------------------------------------ where things go

  /** A message in acceptmbox as its reader sees it. */
  datatype Entry = Error(err: Err) | Newcomer(id: nat)

  function Entries(p: Pending): seq<Entry> {
    match p
    case Nil => []
    case ErrMarker(err, rest) => [Error(err)] + Entries(rest)
    case Waiting(id, _, rest) => [Newcomer(id)] + Entries(rest)
  }

  /** The reference: the pcb and two plain queues. */
  datatype Queues = Queues(pcb: Pcb, recv: Option<seq<Item>>, accept: Option<seq<Entry>>)

  function QueuesOf(c: Conn): Queues {
    Queues(c.pcb, c.recvmbox, if c.acceptmbox.Some? then Some(Entries(c.acceptmbox.value)) else None)
  }

  function Put<T>(q: Option<seq<T>>, x: T, accepted: bool): Option<seq<T>> {
    if q.Some? && accepted then Some(q.value + [x]) else q
  }

  function Pop<T>(q: Option<seq<T>>): Option<seq<T>> { if q.Some? && q.value != [] then Some(q.value[1..]) else q }

  function QueueStep(q: Queues, e: Event): Queues {
    match e
    case Tcp(Deliver(item, room)) => q.(recv := Put(q.recv, item, room))
    case Tcp(Abort(err, recvRoom, acceptRoom)) =>
      Queues(NoPcb, Put(q.recv, Marker, recvRoom), Put(q.accept, Error(err), acceptRoom))
    case ToWaiting(_, _) => q
    case Udp(id, fits, netbuf, room) => q.(recv := Put(q.recv, Data(id), fits && netbuf && room))
    case Raw(id, fits, cloned, netbuf, room) => q.(recv := Put(q.recv, Data(id), fits && cloned && netbuf && room))
    case NewConnection(id, pcb, alloc, room) =>
      q.(accept := Put(q.accept, if pcb && alloc then Newcomer(id) else Error(Abrt), room))
    case Connect => if q.pcb.Unused? then q.(pcb := Live) else q
    case StartListen(listens, mbox) =>
      if !q.pcb.Unused? || !listens then q
      else if q.accept == None && !mbox then Queues(NoPcb, None, None)
      else Queues(Listening, None, if q.accept == None then Some([]) else q.accept)
    case TakeMessage => q.(recv := Pop(q.recv))
    case TakeConnection => q.(accept := Pop(q.accept))
    case DrainBoth => Queues(q.pcb, None, None)
  }

  function QueueRun(q: Queues, es: seq<Event>): Queues
    decreases |es|
  {
    if es == [] then q else QueueRun(QueueStep(q, es[0]), es[1..])
  }

  lemma {:induction false} EntriesAppend(p: Pending, q: Pending)
    ensures Entries(Append(p, q)) == Entries(p) + Entries(q)
    decreases p
  {
    match p {
      case Nil =>
      case ErrMarker(_, rest) => EntriesAppend(rest, q);
      case Waiting(_, _, rest) => EntriesAppend(rest, q);
    }
  }

  lemma {:induction false} EntriesSet(p: Pending, i: nat, c: Conn)
    requires HasWaiting(p, i)
    ensures Entries(SetWaiting(p, i, c)) == Entries(p)
    decreases p
  {
    match p {
      case ErrMarker(_, rest) => EntriesSet(rest, i, c);
      case Waiting(_, _, rest) =>
        if i > 0 {
          EntriesSet(rest, i - 1, c);
        }
    }
  }

  /** What reaches one waiting netconn stays with that one. */
  lemma {:induction false} SetThenGet(p: Pending, i: nat, c: Conn, j: nat)
    requires HasWaiting(p, i) && HasWaiting(p, j)
    ensures HasWaiting(SetWaiting(p, i, c), j)
    ensures GetWaiting(SetWaiting(p, i, c), j) == if i == j then c else GetWaiting(p, j)
    decreases p
  {
    match p {
      case ErrMarker(_, rest) => SetThenGet(rest, i, c, j);
      case Waiting(_, _, rest) =>
        if i > 0 && j > 0 {
          SetThenGet(rest, i - 1, c, j - 1);
        } else if j > 0 {
          assert SetWaiting(p, i, c).rest == rest;
        }
    }
  }

  lemma {:induction false} PostAcceptQueues(c: Conn, message: Pending, entry: Entry, room: bool)
    requires Entries(message) == [entry]
    ensures QueuesOf(PostAccept(c, message, room)) == QueuesOf(c).(accept := Put(QueuesOf(c).accept, entry, room))
  {
    if c.acceptmbox.Some? {
      EntriesAppend(c.acceptmbox.value, message);
    }
  }

  lemma {:induction false} AbortQueues(c: Conn, err: Err, recvRoom: bool, acceptRoom: bool)
    ensures QueuesOf(OnError(c, err, recvRoom, acceptRoom))
         == QueueStep(QueuesOf(c), Tcp(Abort(err, recvRoom, acceptRoom)))
  {
    assert Entries(ErrMarker(err, Nil)) == [Error(err)] + Entries(Nil) == [Error(err)];
    PostAcceptQueues(PostRecv(c.(pcb := NoPcb), Marker, recvRoom), ErrMarker(err, Nil), Error(err), acceptRoom);
  }

  lemma {:induction false} NewQueues(s: Sys, id: nat, pcb: bool, alloc: bool, room: bool)
    ensures QueuesOf(Accept(s, id, pcb, alloc, room).conn)
         == QueueStep(QueuesOf(s.conn), NewConnection(id, pcb, alloc, room))
  {
    var newconn := Conn(Live, Some([]), None);
    assert Entries(ErrMarker(Abrt, Nil)) == [Error(Abrt)] + Entries(Nil) == [Error(Abrt)];
    assert Entries(Waiting(id, newconn, Nil)) == [Newcomer(id)] + Entries(Nil) == [Newcomer(id)];
    PostAcceptQueues(s.conn, ErrMarker(Abrt, Nil), Error(Abrt), room);
    PostAcceptQueues(s.conn, Waiting(id, newconn, Nil), Newcomer(id), room);
  }

  lemma {:induction false} TakeQueues(s: Sys)
    ensures QueuesOf(Fetch(s).conn) == QueueStep(QueuesOf(s.conn), TakeMessage)
    ensures QueuesOf(FetchAccept(s).conn) == QueueStep(QueuesOf(s.conn), TakeConnection)
  {
    if s.conn.acceptmbox.Some? && !s.conn.acceptmbox.value.Nil? {
      var box := s.conn.acceptmbox.value;
      assert Entries(box)[1..] == Entries(box.rest);
    }
  }

  lemma {:induction false} StepQueues(s: Sys, e: Event)
    ensures QueuesOf(Step(s, e).conn) == QueueStep(QueuesOf(s.conn), e)
  {
    match e {
      case Tcp(Abort(err, recvRoom, acceptRoom)) => AbortQueues(s.conn, err, recvRoom, acceptRoom);
      case ToWaiting(i, tcp) =>
        if CanReach(s, i) {
          EntriesSet(s.conn.acceptmbox.value, i, TcpStep(Reach(s, i), tcp).conn);
        }
      case NewConnection(id, pcb, alloc, room) => NewQueues(s, id, pcb, alloc, room);
      case TakeMessage => TakeQueues(s);
      case TakeConnection => TakeQueues(s);
      case _ =>
    }
  }

  /** In every run the two mailboxes behave as plain queues: what finds room is queued at the
      end, what is taken comes from the front, and nothing else gets in or out. */
  lemma {:induction false} MailboxesAreQueues(s: Sys, es: seq<Event>)
    ensures QueuesOf(Run(s, es).conn) == QueueRun(QueuesOf(s.conn), es)
    decreases |es|
  {
    if es != [] {
      StepQueues(s, es[0]);
      MailboxesAreQueues(Step(s, es[0]), es[1..]);
    }
  }

  function BringsTcp(c: Conn, e: TcpEvent): multiset<Token> {
    if e.Deliver? && e.item.Data? && (c.recvmbox == None || e.room) then multiset{Packet(e.item.id)} else multiset{}
  }

  /** What an event makes the stack own: a packet unless TCP keeps it, a copy that was made, or
      a netconn that was allocated. */
  function Brings(c: Conn, e: Event): multiset<Token> {
    match e
    case Tcp(tcp) => BringsTcp(c, tcp)
    case ToWaiting(i, tcp) =>
      if c.acceptmbox.Some? && HasWaiting(c.acceptmbox.value, i)
      then BringsTcp(GetWaiting(c.acceptmbox.value, i), tcp) else multiset{}
    case Udp(id, _, _, _) => multiset{Packet(id)}
    case Raw(id, fits, cloned, _, _) => if c.recvmbox.Some? && fits && cloned then multiset{Packet(id)} else multiset{}
    case NewConnection(id, pcb, alloc, _) =>
      if c.acceptmbox.Some? && pcb && alloc then multiset{Netconn(id)} else multiset{}
    case _ => multiset{}
  }

  /** What an event gives to the application. */
  function Hands(c: Conn, e: Event): multiset<Token> {
    match e
    case TakeMessage =>
      if c.recvmbox.Some? && c.recvmbox.value != [] && c.recvmbox.value[0].Data?
      then multiset{Packet(c.recvmbox.value[0].id)} else multiset{}
    case TakeConnection => if c.acceptmbox.Some? then FrontTokens(c.acceptmbox.value) else multiset{}
    case _ => multiset{}
  }

  lemma {:induction false} TcpMoves(s: Sys, e: TcpEvent)
    ensures TcpStep(s, e).created == s.created + BringsTcp(s.conn, e) && TcpStep(s, e).handed == s.handed
  {
  }

  lemma {:induction false} StackMoves(s: Sys, e: Event)
    requires e.Tcp? || e.ToWaiting? || e.Udp? || e.Raw? || e.NewConnection?
    ensures Step(s, e).created == s.created + Brings(s.conn, e) && Step(s, e).handed == s.handed
  {
    if e.Tcp? {
      TcpMoves(s, e.tcp);
    } else if e.ToWaiting? && CanReach(s, e.i) {
      TcpMoves(Reach(s, e.i), e.tcp);
    }
  }

  lemma {:induction false} AppMoves(s: Sys, e: Event)
    requires !(e.Tcp? || e.ToWaiting? || e.Udp? || e.Raw? || e.NewConnection?)
    ensures Step(s, e).created == s.created && Step(s, e).handed == s.handed + Hands(s.conn, e)
  {
  }

  /** Together with the conservation law and the queues this fixes what is released: what was
      brought in and found no place, and what a drain finds. */
  lemma {:induction false} OwnershipMoves(s: Sys, e: Event)
    ensures Step(s, e).created == s.created + Brings(s.conn, e)
    ensures Step(s, e).handed == s.handed + Hands(s.conn, e)
  {
    if e.Tcp? || e.ToWaiting? || e.Udp? || e.Raw? || e.NewConnection? {
      StackMoves(s, e);
    } else {
      AppMoves(s, e);
    }
  }

  // ------------------------------------------------------------------ the code

  lemma {:induction false} MarkerOwnsNothing(box: Pending, m: multiset<Token>)
    requires box.ErrMarker?
    ensures m + FrontTokens(box) == m
  {
  }

  class Endpoint {
    var pcb: Pcb
    var recvmbox: Option<seq<Item>>
    var acceptmbox: Option<Pending>
    ghost var created: multiset<Token>
    ghost var handed: multiset<Token>
    ghost var released: multiset<Token>

    ghost function View(): Sys
      reads this
    {
      Sys(Conn(pcb, recvmbox, acceptmbox), created, handed, released)
    }

    /** `netconn_alloc` with a new pcb */
    constructor ()
      ensures View() == Sys(Conn(Unused, Some([]), None), multiset{}, multiset{}, multiset{})
    {
      pcb, recvmbox, acceptmbox := Unused, Some([]), None;
      created, handed, released := multiset{}, multiset{}, multiset{};
    }

    /** `recv_tcp`; the result tells TCP whether to keep the data. */
    method OnRecvTcp(item: Item, room: bool) returns (err: Err)
      modifies this
      ensures View() == old(RecvTcp(View(), item, room))
      ensures err == Mem <==> old(recvmbox).Some? && !room
      ensures err in {Ok, Mem} && (err == Mem ==> View() == old(View()))
    {
      if recvmbox == None {
        if item.Data? {
          created, released := created + multiset{Packet(item.id)}, released + multiset{Packet(item.id)};
        }
        return Ok;
      }
      if !room {
        return Mem;
      }
      if item.Data? {
        created := created + multiset{Packet(item.id)};
      }
      recvmbox := Some(recvmbox.value + [item]);
      return Ok;
    }

    /** `recv_udp` */
    method OnRecvUdp(id: nat, fits: bool, netbuf: bool, room: bool)
      modifies this
      ensures View() == old(RecvUdp(View(), id, fits, netbuf, room))
    {
      created := created + multiset{Packet(id)};
      if recvmbox == None || !fits {
        released := released + multiset{Packet(id)};
        return;
      }
      if !netbuf {
        released := released + multiset{Packet(id)};
        return;
      }
      if !room {
        released := released + multiset{Packet(id)};
      } else {
        recvmbox := Some(recvmbox.value + [Data(id)]);
      }
    }

    /** `recv_raw`; `id` names the copy. */
    method OnRecvRaw(id: nat, fits: bool, cloned: bool, netbuf: bool, room: bool)
      modifies this
      ensures View() == old(RecvRaw(View(), id, fits, cloned, netbuf, room))
    {
      if recvmbox.Some? {
        if !fits {
          return;
        }
        if cloned {
          created := created + multiset{Packet(id)};
          if !netbuf {
            released := released + multiset{Packet(id)};
            return;
          }
          if !room {
            released := released + multiset{Packet(id)};
          } else {
            recvmbox := Some(recvmbox.value + [Data(id)]);
          }
        }
      }
    }

    /** `accept_function` */
    method OnAccept(id: nat, newpcb: bool, alloc: bool, room: bool) returns (err: Err)
      modifies this
      ensures View() == old(Accept(View(), id, newpcb, alloc, room))
      ensures err == Ok <==> old(acceptmbox).Some? && newpcb && alloc && room
      ensures err == Val <==> old(acceptmbox) == None || !newpcb
      ensures err in {Ok, Val, Mem}
    {
      if acceptmbox == None {
        return Val;
      }
      if !newpcb {
        if room {
          acceptmbox := Some(Append(acceptmbox.value, ErrMarker(Abrt, Nil)));
        }
        return Val;
      }
      if !alloc {
        if room {
          acceptmbox := Some(Append(acceptmbox.value, ErrMarker(Abrt, Nil)));
        }
        return Mem;
      }
      created := created + multiset{Netconn(id)};
      var newconn := Conn(Live, Some([]), None);
      if !room {
        newconn := newconn.(pcb := NoPcb, recvmbox := None);
        assert Freeable(newconn);
        released := released + multiset{Netconn(id)};
        return Mem;
      }
      acceptmbox := Some(Append(acceptmbox.value, Waiting(id, newconn, Nil)));
      return Ok;
    }

    /** `netconn_drain`, on deletion or when the receive side is shut down. */
    method DrainMailboxes() returns (aborted: seq<nat>)
      modifies this
      ensures View() == old(DrainAll(View()))
      ensures recvmbox == None && acceptmbox == None
    {
      var c, freed;
      c, freed, aborted := Drain(Conn(pcb, recvmbox, acceptmbox));
      recvmbox, acceptmbox := None, None;
      released := released + freed;
    }

    /** `netconn_accept`, for a netconn with this pending error, closed flag and mode. A blocking
        call on an empty mailbox ends with its timeout. */
    method TakeWaiting(pending: Err, closed: bool, nonblocking: bool) returns (err: Err, newconn: Option<Conn>)
      modifies this
      ensures View() == if pending != Ok || closed then old(View()) else old(FetchAccept(View()))
      ensures pending != Ok ==> err == pending
      ensures pending == Ok && (closed || old(acceptmbox) == None) ==> err == Clsd
      ensures pending == Ok && !closed && old(acceptmbox).Some? ==>
                match old(acceptmbox).value
                case Nil => err == if nonblocking then WouldBlock else Timeout
                case ErrMarker(code, _) => err == code
                case Waiting(_, _, _) => err == Ok
      ensures newconn.Some? <==> pending == Ok && !closed && old(acceptmbox.Some? && acceptmbox.value.Waiting?)
      ensures newconn.Some? ==> err == Ok && newconn.value == old(acceptmbox).value.conn
    {
      newconn := None;
      if pending != Ok {
        return pending, None;
      }
      if acceptmbox == None || closed {
        return Clsd, None;
      }
      var message := acceptmbox.value;
      if message.Nil? {
        return if nonblocking then WouldBlock else Timeout, None;
      }
      acceptmbox := Some(message.rest);
      if message.ErrMarker? {
        MarkerOwnsNothing(message, handed);
        return message.err, None;
      }
      handed := handed + FrontTokens(message);
      return Ok, Some(message.conn);
    }
  }
}
