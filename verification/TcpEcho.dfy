/** The raw-API echo server of contrib/apps/tcpecho_raw/tcpecho_raw.c: the callbacks of one
    connection over a chain of reference-counted pbufs. What TCP answers is arbitrary. */
module TcpEcho {
  import opened Lwip

  datatype Pbuf = Pbuf(id: nat, bytes: seq<byte>, ref: nat)

  type Chain = seq<Pbuf>

  datatype State = Accepted | Received | Closing

  datatype Life = Open | Closed | Failed

  /** What one turn of the send loop sees: the send buffer, and the result of `tcp_write`. */
  datatype Reply = Reply(sndbuf: nat, err: Err)

  /** The history of a connection: the pbufs stored in the chain, those of them written, the
      bytes `tcp_write` took, the window credit given back, the pbufs thrown away after the FIN
      or because of an error, and the pbufs that were deallocated, in order. */
  datatype Log = Log(
    arrived: Chain, sent: Chain, written: seq<byte>, credit: nat, trashed: Chain, dropped: Chain, released: Chain)

  datatype Echo = Echo(state: State, p: Chain, life: Life, log: Log)

  function NewEcho(): Echo { Echo(Accepted, [], Open, Log([], [], [], 0, [], [], [])) }

  function Parts(c: Chain): seq<seq<byte>> { seq(|c|, i requires 0 <= i < |c| => c[i].bytes) }

  function Bytes(c: Chain): seq<byte> { Flatten(Parts(c)) }

  // ------------------------------------------------------------------ pbufs

  /** `pbuf_ref` on the first pbuf of a chain. */
  function Referenced(c: Chain): Chain { if c == [] then c else [c[0].(ref := c[0].ref + 1)] + c[1..] }

  /** The pbufs that `pbuf_free` deallocates: the first ones, as long as their last reference
      goes away. */
  function FreedBy(c: Chain): Chain {
    if c == [] || c[0].ref != 1 then [] else [c[0]] + FreedBy(c[1..])
  }

  /** What is left of the chain after `pbuf_free`. */
  function LeftBy(c: Chain): (r: Chain)
    ensures |r| <= |c|
  {
    if c == [] then []
    else if c[0].ref == 1 then LeftBy(c[1..])
    else [c[0].(ref := if c[0].ref > 0 then c[0].ref - 1 else 0)] + c[1..]
  }

  method PbufFree(c: Chain) returns (left: Chain, freed: Chain)
    requires forall i | 0 <= i < |c| :: c[i].ref > 0
    ensures left == LeftBy(c) && freed == FreedBy(c)
  {
    left, freed := c, [];
    while left != []
      invariant forall i | 0 <= i < |left| :: left[i].ref > 0
      invariant LeftBy(c) == LeftBy(left) && FreedBy(c) == freed + FreedBy(left)
      decreases |left|
    {
      var ref := left[0].ref - 1;
      if ref > 0 {
        left := [left[0].(ref := ref)] + left[1..];
        return;
      }
      freed := freed + [left[0]];
      left := left[1..];
    }
  }

  ghost predicate Owned(c: Chain) { forall i | 0 <= i < |c| :: c[i].ref == 1 }

  lemma {:induction false} FreeOwned(c: Chain)
    requires Owned(c)
    ensures FreedBy(c) == c && LeftBy(c) == []
  {
    if c != [] {
      FreeOwned(c[1..]);
    }
  }

  // ------------------------------------------------------------------ the callbacks

  /** One successful turn of the send loop: the rest of the chain gets a reference of its own
      before the first pbuf is freed. */
  function SendOne(s: Echo): (r: Echo)
    requires s.p != []
    ensures |r.p| < |s.p|
  {
    var rest := Referenced(s.p[1..]);
    var chain := [s.p[0]] + rest;
    s.(p := if s.p[0].ref == 1 then LeftBy(rest) else rest,
       log := s.log.(sent := s.log.sent + [s.p[0]], written := s.log.written + s.p[0].bytes,
                     credit := s.log.credit + |s.p[0].bytes|, released := s.log.released + FreedBy(chain)))
  }

  /** The loop stops at an empty chain, a send buffer that is too small or a failed write. */
  predicate Goes(s: Echo, reply: Reply) { s.p != [] && |s.p[0].bytes| <= reply.sndbuf && reply.err == Ok }

  /** `tcpecho_raw_send`, from its `i`-th turn on. */
  function Send(s: Echo, replies: nat -> Reply, i: nat): Echo
    decreases |s.p|
  {
    if Goes(s, replies(i)) then Send(SendOne(s), replies, i + 1) else s
  }

  /** `tcpecho_raw_free`, after `tcp_close` or when TCP reports an error. */
  function End(s: Echo, life: Life): Echo {
    s.(p := [], life := life, log := s.log.(released := s.log.released + FreedBy(s.p)))
  }

  datatype Event =
    | Recv(chain: Chain, err: Err, replies: nat -> Reply)
    | Fin(replies: nat -> Reply)
    | Sent(replies: nat -> Reply)
    | Poll(replies: nat -> Reply)
    | Error

  /** `tcpecho_raw_recv` with data. */
  function OnRecv(s: Echo, c: Chain, err: Err, replies: nat -> Reply): Echo {
    if err != Ok then
      s.(log := s.log.(dropped := s.log.dropped + c, released := s.log.released + FreedBy(c)))
    else if s.state == Accepted || (s.state == Received && s.p == []) then
      Send(s.(state := Received, p := c, log := s.log.(arrived := s.log.arrived + c)), replies, 0)
    else if s.state == Received then
      s.(p := s.p + c, log := s.log.(arrived := s.log.arrived + c))
    else
      s.(log := s.log.(trashed := s.log.trashed + c, credit := s.log.credit + |Bytes(c)|,
                       released := s.log.released + FreedBy(c)))
  }

  /** `tcpecho_raw_recv` without data: the peer closed the connection. */
  function OnFin(s: Echo, replies: nat -> Reply): Echo {
    var s' := s.(state := Closing);
    if s.p == [] then End(s', Closed) else Send(s', replies, 0)
  }

  /** `tcpecho_raw_sent` and `tcpecho_raw_poll` */
  function OnSent(s: Echo, replies: nat -> Reply): Echo {
    if s.p != [] then Send(s, replies, 0) else if s.state == Closing then End(s, Closed) else s
  }

  function Step(s: Echo, e: Event): Echo {
    match e
    case Recv(c, err, replies) => OnRecv(s, c, err, replies)
    case Fin(replies) => OnFin(s, replies)
    case Sent(replies) => OnSent(s, replies)
    case Poll(replies) => OnSent(s, replies)
    case Error => End(s, Failed)
  }

  /** Callbacks come while they are registered, and TCP hands over non-empty chains of which it
      keeps no reference. */
  ghost predicate StepOk(s: Echo, e: Event) {
    s.life == Open && (e.Recv? ==> e.chain != [] && Owned(e.chain))
  }

  function Run(s: Echo, es: seq<Event>): Echo
    decreases |es|
  {
    if es == [] then s else Run(Step(s, es[0]), es[1..])
  }

  ghost predicate RunOk(s: Echo, es: seq<Event>)
    decreases |es|
  {
    es == [] || (StepOk(s, es[0]) && RunOk(Step(s, es[0]), es[1..]))
  }

  // ------------------------------------------------------------------ what every run keeps

  lemma {:induction false} BytesAppend(a: Chain, b: Chain)
    ensures Bytes(a + b) == Bytes(a) + Bytes(b)
  {
    assert Parts(a + b) == Parts(a) + Parts(b);
    FlattenAppend(Parts(a), Parts(b));
  }

  lemma {:induction false} BytesOne(p: Pbuf)
    ensures Bytes([p]) == p.bytes
  {
    assert Parts([p]) == [p.bytes];
    FlattenOne(p.bytes);
  }

  /** The pbufs written and the pending ones are those that arrived, in order. */
  ghost predicate InOrder(s: Echo) {
    Owned(s.p) && s.log.sent + s.p == s.log.arrived && (s.state == Accepted ==> s.log.arrived == [])
  }

  /** What was written are the bytes of the written pbufs; each byte written was credited, as
      was the data thrown away. */
  ghost predicate Counted(l: Log) {
    l.written == Bytes(l.sent) && l.credit == |l.written| + |Bytes(l.trashed)|
  }

  /** The deallocated pbufs are those written, thrown away or dropped, each of them once. */
  ghost predicate ReleasedOnce(l: Log, failed: Chain) {
    multiset(l.released) == multiset(l.sent) + multiset(l.trashed) + multiset(l.dropped) + multiset(failed)
  }

  ghost predicate OpenInv(s: Echo) { InOrder(s) && Counted(s.log) && ReleasedOnce(s.log, []) }

  /** The extra reference keeps the rest of the chain alive: only the first pbuf goes away. */
  lemma {:induction false} ChopFirst(c: Chain)
    requires Owned(c) && c != []
    ensures var rest := Referenced(c[1..]);
            LeftBy(rest) == c[1..] && FreedBy([c[0]] + rest) == [c[0]]
  {
    var rest := Referenced(c[1..]);
    assert ([c[0]] + rest)[1..] == rest;
  }

  lemma {:induction false} SendOneIs(s: Echo)
    requires Owned(s.p) && s.p != []
    ensures SendOne(s).p == s.p[1..] && SendOne(s).state == s.state && SendOne(s).log.arrived == s.log.arrived
    ensures SendOne(s).log.sent == s.log.sent + [s.p[0]]
    ensures SendOne(s).log.released == s.log.released + [s.p[0]]
  {
    ChopFirst(s.p);
  }

  lemma {:induction false} MoveFront(sent: Chain, p: Chain)
    requires Owned(p) && p != []
    ensures sent + [p[0]] + p[1..] == sent + p && Owned(p[1..])
  {
  }

  lemma {:induction false} SendOneInOrder(s: Echo)
    requires InOrder(s) && s.p != []
    ensures InOrder(SendOne(s))
    ensures SendOne(s).log.released == s.log.released + [s.p[0]]
  {
    SendOneIs(s);
    MoveFront(s.log.sent, s.p);
  }

  lemma {:induction false} SendOneCounted(s: Echo)
    requires Counted(s.log) && s.p != []
    ensures Counted(SendOne(s).log)
  {
    BytesAppend(s.log.sent, [s.p[0]]);
    BytesOne(s.p[0]);
  }

  lemma {:induction false} SendOneKeeps(s: Echo)
    requires OpenInv(s) && s.p != []
    ensures OpenInv(SendOne(s)) && SendOne(s).life == s.life
  {
    SendOneInOrder(s);
    SendOneCounted(s);
  }

  lemma {:induction false} SendKeeps(s: Echo, replies: nat -> Reply, i: nat)
    requires OpenInv(s)
    ensures OpenInv(Send(s, replies, i)) && Send(s, replies, i).life == s.life
    decreases |s.p|
  {
    if Goes(s, replies(i)) {
      SendOneKeeps(s);
      SendKeeps(SendOne(s), replies, i + 1);
    }
  }

  /** While the connection is open the chain is in order; it closes gracefully only when
      everything received before the FIN was written; whichever way it ends, every pbuf that
      was ever handed over has been released exactly once. */
  ghost predicate Inv(s: Echo) {
    match s.life
    case Open => OpenInv(s)
    case Closed => s.p == [] && OpenInv(s)
    case Failed =>
      && s.p == [] && s.log.sent <= s.log.arrived && Counted(s.log)
      && ReleasedOnce(s.log, s.log.arrived[|s.log.sent|..])
  }

  lemma {:induction false} DropKeeps(s: Echo, c: Chain)
    requires OpenInv(s) && Owned(c)
    ensures OpenInv(s.(log := s.log.(dropped := s.log.dropped + c, released := s.log.released + FreedBy(c))))
  {
    FreeOwned(c);
  }

  lemma {:induction false} TrashKeeps(s: Echo, c: Chain)
    requires OpenInv(s) && Owned(c)
    ensures OpenInv(s.(log := s.log.(trashed := s.log.trashed + c, credit := s.log.credit + |Bytes(c)|,
                                     released := s.log.released + FreedBy(c))))
  {
    FreeOwned(c);
    BytesAppend(s.log.trashed, c);
  }

  lemma {:induction false} StoreKeeps(s: Echo, c: Chain)
    requires OpenInv(s) && Owned(c)
    ensures OpenInv(s.(state := Received, p := s.p + c, log := s.log.(arrived := s.log.arrived + c)))
  {
    assert s.log.sent + (s.p + c) == s.log.arrived + c;
  }

  lemma {:induction false} RecvKeeps(s: Echo, c: Chain, err: Err, replies: nat -> Reply)
    requires OpenInv(s) && s.life == Open && Owned(c)
    ensures Inv(OnRecv(s, c, err, replies))
  {
    if err != Ok {
      DropKeeps(s, c);
    } else if s.state == Closing {
      TrashKeeps(s, c);
    } else {
      StoreKeeps(s, c);
      assert s.state == Accepted ==> s.p == [];
      if s.p == [] {
        assert s.p + c == c;
        SendKeeps(s.(state := Received, p := c, log := s.log.(arrived := s.log.arrived + c)), replies, 0);
      }
    }
  }

  lemma {:induction false} StepKeeps(s: Echo, e: Event)
    requires Inv(s) && StepOk(s, e)
    ensures Inv(Step(s, e))
  {
    match e {
      case Recv(c, err, replies) => RecvKeeps(s, c, err, replies);
      case Fin(replies) => FinKeeps(s, replies);
      case Sent(replies) => SentKeeps(s, replies);
      case Poll(replies) => SentKeeps(s, replies);
      case Error =>
        FreeOwned(s.p);
        assert s.log.arrived[|s.log.sent|..] == s.p;
    }
  }

  lemma {:induction false} FinKeeps(s: Echo, replies: nat -> Reply)
    requires OpenInv(s) && s.life == Open
    ensures Inv(OnFin(s, replies))
  {
    if s.p != [] {
      SendKeeps(s.(state := Closing), replies, 0);
    }
  }

  lemma {:induction false} SentKeeps(s: Echo, replies: nat -> Reply)
    requires OpenInv(s) && s.life == Open
    ensures Inv(OnSent(s, replies))
  {
    if s.p != [] {
      SendKeeps(s, replies, 0);
    }
  }

  lemma {:induction false} RunKeeps(s: Echo, es: seq<Event>)
    requires Inv(s) && RunOk(s, es)
    ensures Inv(Run(s, es))
    decreases |es|
  {
    if es != [] {
      StepKeeps(s, es[0]);
      RunKeeps(Step(s, es[0]), es[1..]);
    }
  }

  /** What the peer sent before its FIN, without the chains that came with an error. */
  function PeerSent(es: seq<Event>): Chain {
    if es == [] || es[0].Fin? then []
    else (if es[0].Recv? && es[0].err == Ok then es[0].chain else []) + PeerSent(es[1..])
  }

  /** What came with an error, and what came after the FIN. */
  function WithError(es: seq<Event>): Chain {
    if es == [] then [] else (if es[0].Recv? && es[0].err != Ok then es[0].chain else []) + WithError(es[1..])
  }

  function Late(es: seq<Event>, closing: bool): Chain {
    if es == [] then []
    else (if closing && es[0].Recv? && es[0].err == Ok then es[0].chain else []) + Late(es[1..], closing || es[0].Fin?)
  }

  /** Sending changes none of the three. */
  lemma {:induction false} SendStores(s: Echo, replies: nat -> Reply, i: nat)
    ensures var t := Send(s, replies, i);
            && t.state == s.state && t.log.arrived == s.log.arrived
            && t.log.dropped == s.log.dropped && t.log.trashed == s.log.trashed
    decreases |s.p|
  {
    if Goes(s, replies(i)) {
      SendStores(SendOne(s), replies, i + 1);
    }
  }

  lemma {:induction false} StepStores(s: Echo, e: Event)
    requires s.state == Accepted ==> s.p == []
    ensures var t := Step(s, e);
            var open := s.state != Closing;
            && (t.state == Closing <==> s.state == Closing || e.Fin?)
            && t.log.arrived == s.log.arrived + (if open && e.Recv? && e.err == Ok then e.chain else [])
            && t.log.dropped == s.log.dropped + (if e.Recv? && e.err != Ok then e.chain else [])
            && t.log.trashed == s.log.trashed + (if !open && e.Recv? && e.err == Ok then e.chain else [])
  {
    match e {
      case Recv(c, err, replies) =>
        SendStores(s.(state := Received, p := c, log := s.log.(arrived := s.log.arrived + c)), replies, 0);
      case Fin(replies) => SendStores(s.(state := Closing), replies, 0);
      case Sent(replies) => SendStores(s, replies, 0);
      case Poll(replies) => SendStores(s, replies, 0);
      case Error =>
    }
  }

  lemma {:induction false} Regroup(a: Chain, b: Chain, c: Chain)
    ensures a + b + c == a + (b + c)
  {
  }

  /** Everything the peer sent before its FIN is stored to be echoed. */
  lemma {:induction false} RunStores(s: Echo, es: seq<Event>)
    requires Inv(s) && RunOk(s, es)
    ensures Run(s, es).log.arrived == s.log.arrived + (if s.state == Closing then [] else PeerSent(es))
    decreases |es|
  {
    if es != [] {
      StepStores(s, es[0]);
      StepKeeps(s, es[0]);
      RunStores(Step(s, es[0]), es[1..]);
      var now := if es[0].Recv? && es[0].err == Ok then es[0].chain else [];
      Regroup(s.log.arrived, now, PeerSent(es[1..]));
    }
  }

  /** Only what came with an error is dropped. */
  lemma {:induction false} RunDrops(s: Echo, es: seq<Event>)
    requires Inv(s) && RunOk(s, es)
    ensures Run(s, es).log.dropped == s.log.dropped + WithError(es)
    decreases |es|
  {
    if es != [] {
      StepStores(s, es[0]);
      StepKeeps(s, es[0]);
      RunDrops(Step(s, es[0]), es[1..]);
      var now := if es[0].Recv? && es[0].err != Ok then es[0].chain else [];
      Regroup(s.log.dropped, now, WithError(es[1..]));
    }
  }

  /** Only what came after the FIN is thrown away. */
  lemma {:induction false} RunTrashes(s: Echo, es: seq<Event>)
    requires Inv(s) && RunOk(s, es)
    ensures Run(s, es).log.trashed == s.log.trashed + Late(es, s.state == Closing)
    decreases |es|
  {
    if es != [] {
      StepStores(s, es[0]);
      StepKeeps(s, es[0]);
      RunTrashes(Step(s, es[0]), es[1..]);
      var now := if s.state == Closing && es[0].Recv? && es[0].err == Ok then es[0].chain else [];
      Regroup(s.log.trashed, now, Late(es[1..], s.state == Closing || es[0].Fin?));
    }
  }

  /** For every sequence of callbacks and every answer of TCP: what was written followed by what
      is pending is what the peer sent before its FIN; a graceful close leaves nothing unwritten;
      and the credit returned is what was written plus what was thrown away. */
  lemma {:induction false} EchoConserves(es: seq<Event>)
    requires RunOk(NewEcho(), es)
    ensures var s := Run(NewEcho(), es);
            && (s.life != Failed ==> s.log.written + Bytes(s.p) == Bytes(PeerSent(es)))
            && s.log.credit == |s.log.written| + |Bytes(Late(es, false))|
            && (s.life == Closed ==> s.log.written == Bytes(PeerSent(es)))
            && s.log.written <= Bytes(PeerSent(es))
  {
    RunKeeps(NewEcho(), es);
    RunStores(NewEcho(), es);
    RunTrashes(NewEcho(), es);
    var s := Run(NewEcho(), es);
    assert s.log.arrived == PeerSent(es) && s.log.trashed == Late(es, false);
    var rest := s.log.arrived[|s.log.sent|..];
    assert s.log.arrived == s.log.sent + rest;
    BytesAppend(s.log.sent, rest);
    if s.life != Failed {
      assert s.p == rest;
    }
  }

  /** Each pbuf is released once, and not before its bytes were written: the released ones are
      the written, trashed and dropped ones, and on failure also those still pending. */
  lemma {:induction false} EchoReleases(es: seq<Event>)
    requires RunOk(NewEcho(), es)
    ensures var s := Run(NewEcho(), es);
            && s.log.sent <= s.log.arrived == PeerSent(es)
            && s.log.written == Bytes(s.log.sent)
            && s.log.trashed == Late(es, false) && s.log.dropped == WithError(es)
            && ReleasedOnce(s.log, if s.life == Failed then s.log.arrived[|s.log.sent|..] else [])
  {
    RunKeeps(NewEcho(), es);
    RunStores(NewEcho(), es);
    RunDrops(NewEcho(), es);
    RunTrashes(NewEcho(), es);
  }

  // ------------------------------------------------------------------ progress

  /** TCP takes a pbuf: there is room for all of it, and `tcp_write` succeeds. */
  predicate Takes(p: Pbuf, reply: Reply) { |p.bytes| <= reply.sndbuf && reply.err == Ok }

  /** Of the chain `c` everything was written, from turn `i` on, up to the first pbuf that TCP
      refused, so that `left` is pending. */
  ghost predicate Served(c: Chain, left: Chain, replies: nat -> Reply, i: nat) {
    && |left| <= |c| && left == c[|c| - |left|..]
    && (forall j | 0 <= j < |c| - |left| :: Takes(c[j], replies(i + j)))
    && (left != [] ==> !Takes(left[0], replies(i + |c| - |left|)))
  }

  lemma {:induction false} ServedMore(c: Chain, left: Chain, replies: nat -> Reply, i: nat)
    requires c != [] && Takes(c[0], replies(i)) && Served(c[1..], left, replies, i + 1)
    ensures Served(c, left, replies, i)
  {
    var n := |c| - |left|;
    assert left == c[1..][n - 1..] == c[n..];
    forall j | 0 <= j < n ensures Takes(c[j], replies(i + j)) {
      if j > 0 {
        assert c[j] == c[1..][j - 1] && replies(i + j) == replies(i + 1 + (j - 1));
      }
    }
    assert i + 1 + |c[1..]| - |left| == i + |c| - |left|;
  }

  lemma {:induction false} SendServes(s: Echo, replies: nat -> Reply, i: nat)
    requires Owned(s.p)
    ensures Served(s.p, Send(s, replies, i).p, replies, i)
    decreases |s.p|
  {
    if Goes(s, replies(i)) {
      SendOneIs(s);
      SendServes(SendOne(s), replies, i + 1);
      ServedMore(s.p, Send(s, replies, i).p, replies, i);
    } else {
      assert s.p[0..] == s.p;
    }
  }

  lemma {:induction false} PendingServed(s: Echo, e: Event)
    requires OpenInv(s) && s.life == Open && s.p != [] && (e.Sent? || e.Poll? || e.Fin?)
    ensures Step(s, e).life == Open && Served(s.p, Step(s, e).p, e.replies, 0)
  {
    var s' := if e.Fin? then s.(state := Closing) else s;
    SendKeeps(s', e.replies, 0);
    SendServes(s', e.replies, 0);
  }

  lemma {:induction false} ChainServed(s: Echo, c: Chain, replies: nat -> Reply)
    requires OpenInv(s) && s.life == Open && s.p == [] && Owned(c) && s.state != Closing
    ensures OnRecv(s, c, Ok, replies).life == Open && Served(c, OnRecv(s, c, Ok, replies).p, replies, 0)
  {
    var s' := s.(state := Received, p := c, log := s.log.(arrived := s.log.arrived + c));
    StoreKeeps(s, c);
    assert s.p + c == c;
    SendKeeps(s', replies, 0);
    SendServes(s', replies, 0);
  }

  /** Nothing waits without a reason: data for an empty chain, and a `sent`, `poll` or FIN that
      finds something pending, make the server write until TCP refuses a pbuf; a `sent` or
      `poll` after the FIN, or the FIN itself, that finds nothing pending closes the connection;
      and data that comes while something is pending is queued behind it. */
  lemma {:induction false} EchoProgress(s: Echo, e: Event)
    requires Inv(s) && StepOk(s, e)
    ensures var t := Step(s, e);
            && ((e.Sent? || e.Poll? || e.Fin?) && s.p != [] ==> t.life == Open && Served(s.p, t.p, e.replies, 0))
            && (e.Recv? && e.err == Ok && s.state != Closing && s.p == [] ==>
                  t.life == Open && Served(e.chain, t.p, e.replies, 0))
            && (e.Recv? && e.err == Ok && s.state != Closing && s.p != [] ==> t.life == Open && t.p == s.p + e.chain)
            && (e.Recv? && (e.err != Ok || s.state == Closing) ==> t.life == Open && t.p == s.p)
            && ((e.Sent? || e.Poll?) && s.p == [] ==> t.p == [] && (t.life == Closed <==> s.state == Closing))
            && (e.Fin? && s.p == [] ==> t.life == Closed)
            && (t.life == Failed <==> e.Error?)
  {
    if s.p != [] && !e.Recv? && !e.Error? {
      PendingServed(s, e);
    } else if e.Recv? && e.err == Ok && s.state != Closing && s.p == [] {
      ChainServed(s, e.chain, e.replies);
    }
  }

  /** With room for everything and no errors nothing stays pending. */
  lemma {:induction false} EchoesAll(s: Echo, e: Event)
    requires Inv(s) && StepOk(s, e) && (e.Sent? || e.Poll? || e.Fin?)
    requires forall i | 0 <= i < |s.p| :: Takes(s.p[i], e.replies(i))
    ensures Step(s, e).p == []
  {
    EchoProgress(s, e);
  }

  // ------------------------------------------------------------------ the code

  class Connection {
    var state: State
    var p: Chain
    var life: Life
    ghost var log: Log

    ghost function View(): Echo
      reads this
    {
      Echo(state, p, life, log)
    }

    /** `tcpecho_raw_accept` */
    constructor ()
      ensures View() == NewEcho() && Inv(View())
    {
      state, p, life := Accepted, [], Open;
      log := Log([], [], [], 0, [], [], []);
    }

    /** `tcpecho_raw_send` */
    method SendPending(replies: nat -> Reply)
      requires Owned(p)
      modifies this
      ensures View() == old(Send(View(), replies, 0))
    {
      var i := 0;
      var wrErr := Ok;
      ghost var s := View();
      while wrErr == Ok && p != [] && |p[0].bytes| <= replies(i).sndbuf
        invariant Owned(p)
        invariant Send(s, replies, 0) == if wrErr == Ok then Send(View(), replies, i) else View()
        decreases |p|, wrErr == Ok
      {
        wrErr := replies(i).err;
        if wrErr == Ok {
          ChopHead();
          i := i + 1;
        }
      }
    }

    /** After a successful write: step to the next pbuf, take a reference to it, free the first
        one and open the window. */
    method ChopHead()
      requires Owned(p) && p != []
      modifies this
      ensures View() == old(SendOne(View())) && Owned(p)
    {
      ChopFirst(p);
      var ptr := p[0];
      p := Referenced(p[1..]);
      assert ([ptr] + p)[1..] == p;
      var left, freed := PbufFree([ptr] + p);
      p := left;
      log := log.(sent := log.sent + [ptr], written := log.written + ptr.bytes,
                  credit := log.credit + |ptr.bytes|, released := log.released + freed);
    }

    /** `tcpecho_raw_recv` */
    method OnReceive(c: Chain, err: Err, replies: nat -> Reply)
      requires OpenInv(View()) && life == Open && Owned(c) && c != []
      modifies this
      ensures View() == old(OnRecv(View(), c, err, replies)) && Inv(View())
    {
      RecvKeeps(View(), c, err, replies);
      TakeChain(c, err, replies);
    }

    method TakeChain(c: Chain, err: Err, replies: nat -> Reply)
      requires Owned(p) && Owned(c) && (state == Accepted ==> p == [])
      modifies this
      ensures View() == old(OnRecv(View(), c, err, replies))
    {
      if err != Ok {
        log := log.(dropped := log.dropped + c, released := log.released + FreedBy(c));
      } else if state == Accepted {
        state := Received;
        p := c;
        log := log.(arrived := log.arrived + c);
        SendPending(replies);
      } else if state == Received {
        if p == [] {
          p := c;
          log := log.(arrived := log.arrived + c);
          SendPending(replies);
        } else {
          p := p + c;
          log := log.(arrived := log.arrived + c);
        }
      } else {
        log := log.(trashed := log.trashed + c, credit := log.credit + |Bytes(c)|,
                    released := log.released + FreedBy(c));
      }
    }

    method OnClosedByPeer(replies: nat -> Reply)
      requires OpenInv(View()) && life == Open
      modifies this
      ensures View() == old(OnFin(View(), replies)) && Inv(View())
    {
      FinKeeps(View(), replies);
      state := Closing;
      if p == [] {
        Close();
      } else {
        SendPending(replies);
      }
    }

    /** `tcpecho_raw_close`: never with data left to send. */
    method Close()
      requires p == []
      modifies this
      ensures View() == old(End(View(), Closed))
    {
      log := log.(released := log.released + FreedBy(p));
      life := Closed;
      p := [];
    }

    /** `tcpecho_raw_sent` and `tcpecho_raw_poll` */
    method OnSentOrPoll(replies: nat -> Reply)
      requires OpenInv(View()) && life == Open
      modifies this
      ensures View() == old(OnSent(View(), replies)) && Inv(View())
    {
      SentKeeps(View(), replies);
      if p != [] {
        SendPending(replies);
      } else if state == Closing {
        Close();
      }
    }

    /** `tcpecho_raw_error` */
    method OnError()
      requires OpenInv(View()) && life == Open
      modifies this
      ensures View() == old(End(View(), Failed)) && Inv(View())
    {
      StepKeeps(View(), Error);
      log := log.(released := log.released + FreedBy(p));
      life := Failed;
      p := [];
    }
  }
}
