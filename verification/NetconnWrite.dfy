/** The vectored write of api_msg.c (`lwip_netconn_do_writemore`) and the length
    check in front of it in api_lib.c (`netconn_write_vectors_partly`).

    The TCP stack answers through `Reply` values: what `tcp_sndbuf` and `tcp_write`
    return in each pass of the do/while loop. Nothing is assumed about them beyond
    their types, so a statement over every `replies` function is one over every
    behaviour of the stack. */
module NetconnWrite {
  import opened Lwip

  const MAX_U16: nat := 0xffff

  /** `tcp_write` never reports ERR_WOULDBLOCK (tcp_out.c). */
  type WriteErr = e: Err | e != WouldBlock witness Ok

  datatype Reply = Reply(sndbuf: u16, err: WriteErr)

  /** `msg.w` of a write message. `at` is the index of the vector that the C pointer
      `vector` designates, `cnt` is `vector_cnt` and `off` is `vector_off`. */
  datatype Cursor = Cursor(vectors: seq<seq<byte>>, at: nat, off: nat, cnt: nat, len: nat, offset: nat)

  /** What `netconn_write_vectors_partly` fills in. */
  function Start(vectors: seq<seq<byte>>, len: nat): Cursor {
    Cursor(vectors, 0, 0, |vectors|, len, 0)
  }

  /** The cursor denotes the position `offset` of the concatenated vectors. */
  ghost predicate Positioned(c: Cursor) {
    && c.at < |c.vectors|
    && c.off <= |c.vectors[c.at]|
    && c.offset == |Flatten(c.vectors[..c.at])| + c.off
    && c.offset <= |Flatten(c.vectors)|
    && (if c.cnt == 0 then c.at == |c.vectors| - 1 && c.off == |c.vectors[c.at]|
        else c.at + c.cnt == |c.vectors| && (c.off < |c.vectors[c.at]| || c.off == 0))
  }

  ghost predicate Ready(c: Cursor) {
    Positioned(c) && c.cnt > 0
  }

  /** The part of this that speaks of the current vector alone. */
  predicate Aimed(c: Cursor) {
    c.cnt > 0 && c.at + c.cnt == |c.vectors| && (c.off < |c.vectors[c.at]| || c.off == 0)
  }

  /** Bytes of vector `i` that are still to be written. */
  function Left(c: Cursor, i: nat): int
    requires i < |c.vectors|
  {
    |c.vectors[i]| - (if i == c.at then c.off else 0)
  }

  /** One pass of the do/while loop; `again` is the loop condition. */
  datatype Pass = Pass(c: Cursor, took: seq<byte>, err: Err, again: bool)

  function Advance(c: Cursor, n: nat): Cursor
    requires c.at < |c.vectors|
  {
    var d := c.(offset := c.offset + n, off := c.off + n);
    if d.off == |c.vectors[c.at]| && d.cnt > 0 then
      var e := d.(cnt := d.cnt - 1);
      if e.cnt > 0 then e.(at := e.at + 1, off := 0) else e
    else d
  }

  predicate InRange(c: Cursor) {
    c.at < |c.vectors| && c.off <= |c.vectors[c.at]|
  }

  function OnePass(c: Cursor, dontblock: bool, r: Reply): Pass {
    if !InRange(c) then Pass(c, [], Arg, false) else
    var diff := |c.vectors[c.at]| - c.off;
    var n := Min(Min(diff, MAX_U16), r.sndbuf);
    if dontblock && n == 0 && diff > 0 then
      Pass(c, [], if c.offset == 0 then WouldBlock else Ok, false)
    else
      var more := (n == MAX_U16 && diff > MAX_U16) || (n == diff % 0x1_0000 && c.cnt > 1);
      if r.err == Ok then
        Pass(Advance(c, n), c.vectors[c.at][c.off..c.off + n], Ok, more)
      else
        Pass(c, [], r.err, false)
  }

  /** The loop after at most `n` passes, the first of which reads `replies(i)`. */
  datatype Loop = Running(c: Cursor, took: seq<byte>) | Done(c: Cursor, took: seq<byte>, err: Err)

  function Prepend(took: seq<byte>, l: Loop): Loop {
    l.(took := took + l.took)
  }

  lemma {:induction false} AdvancePositioned(c: Cursor, n: nat)
    requires Ready(c) && c.off + n <= |c.vectors[c.at]|
    ensures var d := Advance(c, n);
            Positioned(d) && d.vectors == c.vectors && d.len == c.len && d.offset == c.offset + n
  {
    FlattenNext(c.vectors, c.at);
    FlattenCut(c.vectors, c.at + 1);
  }

  /** Going on inside the middle one of three pieces. */
  lemma {:induction false} InsidePiece(before: seq<byte>, piece: seq<byte>, after: seq<byte>, off: nat, n: nat)
    requires off + n <= |piece|
    ensures var all := before + piece + after;
            all[..|before| + off + n] == all[..|before| + off] + piece[off..off + n]
  {
  }

  /** `took` are the bytes between the positions of two cursors over the same vectors. */
  ghost predicate Took(c: Cursor, d: Cursor, took: seq<byte>) {
    && Positioned(d) && d.vectors == c.vectors && d.len == c.len && c.offset <= d.offset
    && Flatten(c.vectors)[..d.offset] == Flatten(c.vectors)[..c.offset] + took
  }

  lemma {:induction false} AdvanceTakes(c: Cursor, n: nat)
    requires Ready(c) && c.off + n <= |c.vectors[c.at]|
    ensures Took(c, Advance(c, n), c.vectors[c.at][c.off..c.off + n])
  {
    AdvancePositioned(c, n);
    NextBytes(c.vectors, c.at, c.off, n);
  }

  /** The bytes of a vector at their place in the whole. */
  lemma {:induction false} NextBytes(vectors: seq<seq<byte>>, at: nat, off: nat, n: nat)
    requires at < |vectors| && off + n <= |vectors[at]|
    ensures var from := |Flatten(vectors[..at])| + off;
            && from + n <= |Flatten(vectors)|
            && Flatten(vectors)[..from + n] == Flatten(vectors)[..from] + vectors[at][off..off + n]
  {
    FlattenSplit(vectors, at);
    InsidePiece(Flatten(vectors[..at]), vectors[at], Flatten(vectors[at + 1..]), off, n);
  }

  lemma {:induction false} TookNothing(c: Cursor)
    requires Positioned(c)
    ensures Took(c, c, [])
  {
  }

  lemma {:induction false} TookBoth(c: Cursor, d: Cursor, e: Cursor, t: seq<byte>, u: seq<byte>)
    requires Positioned(c) && Took(c, d, t) && Took(d, e, u)
    ensures Took(c, e, t + u)
  {
    Regroup(Flatten(c.vectors)[..c.offset], t, u);
  }

  lemma {:induction false} Regroup(a: seq<byte>, b: seq<byte>, c: seq<byte>)
    ensures a + b + c == a + (b + c)
  {
  }

  lemma {:induction false} PassKeeps(c: Cursor, dontblock: bool, r: Reply)
    requires Ready(c)
    ensures var p := OnePass(c, dontblock, r); Took(c, p.c, p.took) && (p.again ==> Ready(p.c) && p.err == Ok)
  {
    var diff := |c.vectors[c.at]| - c.off;
    var n := Min(Min(diff, MAX_U16), r.sndbuf);
    if r.err == Ok && !(dontblock && n == 0 && diff > 0) {
      AdvanceTakes(c, n);
    } else {
      TookNothing(c);
    }
  }

  /** The part of this that says where the cursor is. */
  lemma {:induction false} PassReady(c: Cursor, dontblock: bool, r: Reply)
    requires Ready(c)
    ensures var p := OnePass(c, dontblock, r);
            && Positioned(p.c) && p.c.vectors == c.vectors && p.c.len == c.len && c.offset <= p.c.offset
            && (p.again ==> Ready(p.c))
  {
    PassKeeps(c, dontblock, r);
  }

  function Run(c: Cursor, dontblock: bool, replies: nat -> Reply, i: nat, n: nat): Loop
    decreases n
  {
    if n == 0 then Running(c, [])
    else
      var p := OnePass(c, dontblock, replies(i));
      if p.again then Prepend(p.took, Run(p.c, dontblock, replies, i + 1, n - 1))
      else Done(p.c, p.took, p.err)
  }

  /** What follows a pass. */
  function Then(p: Pass, l: Loop): Loop { if p.again then Prepend(p.took, l) else Done(p.c, p.took, p.err) }

  lemma {:induction false} RunMore(c: Cursor, dontblock: bool, replies: nat -> Reply, i: nat, n: nat)
    ensures var p := OnePass(c, dontblock, replies(i));
            Run(c, dontblock, replies, i, n + 1) == Then(p, Run(p.c, dontblock, replies, i + 1, n))
  {
  }

  /** Conservation: whatever the stack answers, the cursor keeps denoting the position
      `offset`, and the bytes that were accepted are exactly the bytes between the old and
      the new offset, in order, with no gap and no repeat. */
  lemma {:induction false} RunConserves(c: Cursor, dontblock: bool, replies: nat -> Reply, i: nat, n: nat)
    requires Ready(c)
    ensures var l := Run(c, dontblock, replies, i, n); Took(c, l.c, l.took) && (l.Running? ==> Ready(l.c))
    decreases n
  {
    if n == 0 {
      TookNothing(c);
    } else {
      PassKeeps(c, dontblock, replies(i));
      var p := OnePass(c, dontblock, replies(i));
      if p.again {
        RunConserves(p.c, dontblock, replies, i + 1, n - 1);
        var m := Run(p.c, dontblock, replies, i + 1, n - 1);
        TookBoth(c, p.c, m.c, p.took, m.took);
      }
    }
  }

  /** How one pass can leave the loop. */
  ghost predicate EndOk(c: Cursor, dontblock: bool, err: Err) {
    && (err == WouldBlock ==> dontblock && c.offset == 0)
    && (c.cnt == 0 ==> err == Ok)
    && (dontblock && err == Ok ==> c.offset > 0 || |Flatten(c.vectors)| == 0)
  }

  /** What a pass leaves: a cursor to go on with, or one that tells why the loop ends; without an
      error and without progress it ends only behind the last vector. */
  ghost predicate Leaves(c: Cursor, dontblock: bool, err: Err) {
    && (err == WouldBlock ==> dontblock && c.offset == 0)
    && (c.cnt == 0 ==> err == Ok)
    && (dontblock && err == Ok && c.offset == 0 ==> c.cnt == 0)
  }

  lemma {:induction false} PassLeaves(c: Cursor, dontblock: bool, r: Reply)
    requires Aimed(c)
    ensures var p := OnePass(c, dontblock, r); if p.again then Aimed(p.c) else Leaves(p.c, dontblock, p.err)
  {
  }

  lemma {:induction false} LoopLeaves(c: Cursor, dontblock: bool, replies: nat -> Reply, i: nat, n: nat)
    requires Aimed(c)
    ensures var l := Run(c, dontblock, replies, i, n); l.Done? ==> Leaves(l.c, dontblock, l.err)
    decreases n
  {
    if n > 0 {
      PassLeaves(c, dontblock, replies(i));
      var p := OnePass(c, dontblock, replies(i));
      if p.again {
        LoopLeaves(p.c, dontblock, replies, i + 1, n - 1);
      }
    }
  }

  lemma {:induction false} LeavesEndOk(c: Cursor, dontblock: bool, err: Err)
    requires Positioned(c) && Leaves(c, dontblock, err)
    ensures EndOk(c, dontblock, err)
  {
    if c.cnt == 0 {
      AtEnd(c);
    }
  }

  lemma {:induction false} RunEnds(c: Cursor, dontblock: bool, replies: nat -> Reply, i: nat, n: nat)
    requires Ready(c)
    ensures var l := Run(c, dontblock, replies, i, n);
            l.Done? ==> EndOk(l.c, dontblock, l.err)
  {
    var l := Run(c, dontblock, replies, i, n);
    RunConserves(c, dontblock, replies, i, n);
    LoopLeaves(c, dontblock, replies, i, n);
    if l.Done? {
      LeavesEndOk(l.c, dontblock, l.err);
    }
  }

  // ------------------------------------------------------------------ what a call achieves

  /** A pass hands over as much as the vector has left, 16 bits allow and the send buffer has
      room for; it fails only with the error of `tcp_write`, and then changes nothing. */
  lemma {:induction false} PassIsGreedy(c: Cursor, dontblock: bool, r: Reply)
    requires Ready(c)
    ensures var p := OnePass(c, dontblock, r);
            && (r.err == Ok ==> |p.took| == Min(Left(c, c.at), Min(MAX_U16, r.sndbuf)))
            && (r.err == Ok && (!dontblock || r.sndbuf > 0) ==> p.err == Ok)
            && (r.err != Ok ==> p.c == c && p.took == [])
            && (r.err != Ok && (!dontblock || r.sndbuf > 0) ==> p.err == r.err)
  {
  }

  ghost predicate Roomy(replies: nat -> Reply) { forall i: nat :: replies(i) == Reply(0xffff, Ok) }

  lemma {:induction false} RoomyPass(c: Cursor, dontblock: bool)
    requires Ready(c)
    ensures var p := OnePass(c, dontblock, Reply(0xffff, Ok));
            && p.err == Ok && (p.again <==> p.c.cnt > 0)
            && (p.again ==> Ready(p.c) && (p.c.cnt < c.cnt || (p.c.cnt == c.cnt && Left(p.c, p.c.at) < Left(c, c.at))))
  {
    PassReady(c, dontblock, Reply(0xffff, Ok));
  }

  /** The loop ended and the whole request was written. */
  ghost predicate WroteAll(c: Cursor, l: Loop) {
    l.Done? && l.err == Ok && l.c.cnt == 0 && l.c.offset == |Flatten(c.vectors)|
  }

  lemma {:induction false} RoomyLast(c: Cursor, dontblock: bool, replies: nat -> Reply, i: nat)
    requires Ready(c) && replies(i) == Reply(0xffff, Ok) && !OnePass(c, dontblock, replies(i)).again
    ensures WroteAll(c, Run(c, dontblock, replies, i, 1))
  {
    RoomyPass(c, dontblock);
    PassReady(c, dontblock, replies(i));
    AtEnd(OnePass(c, dontblock, replies(i)).c);
    RunMore(c, dontblock, replies, i, 0);
  }

  lemma {:induction false} RoomyMore(c: Cursor, dontblock: bool, replies: nat -> Reply, i: nat, n: nat)
    requires Ready(c)
    requires var p := OnePass(c, dontblock, replies(i));
             p.again && WroteAll(p.c, Run(p.c, dontblock, replies, i + 1, n))
    ensures WroteAll(c, Run(c, dontblock, replies, i, n + 1))
  {
    PassReady(c, dontblock, replies(i));
    RunMore(c, dontblock, replies, i, n);
  }

  /** As long as there is room, one call writes the whole request, however many vectors it has
      and however large they are. */
  lemma {:induction false} RoomWritesAll(c: Cursor, dontblock: bool, replies: nat -> Reply, i: nat) returns (n: nat)
    requires Ready(c) && Roomy(replies)
    ensures WroteAll(c, Run(c, dontblock, replies, i, n))
    decreases c.cnt, Left(c, c.at)
  {
    RoomyPass(c, dontblock);
    var p := OnePass(c, dontblock, replies(i));
    if p.again {
      n := RoomWritesAll(p.c, dontblock, replies, i + 1);
      RoomyMore(c, dontblock, replies, i, n);
      n := n + 1;
    } else {
      n := 1;
      RoomyLast(c, dontblock, replies, i);
    }
  }

  /** TCP did not take all it was offered. */
  predicate Refuses(r: Reply) { r.err != Ok || r.sndbuf < MAX_U16 }

  /** A call that leaves something to write was refused something, and its error is one that
      `tcp_write` gave, unless it was told not to wait. */
  lemma {:induction false} RunRefused(c: Cursor, dontblock: bool, replies: nat -> Reply, i: nat, n: nat)
    requires Aimed(c)
    ensures var l := Run(c, dontblock, replies, i, n);
            l.Done? ==>
              && (l.c.cnt > 0 ==> exists j | i <= j < i + n :: Refuses(replies(j)))
              && (l.err !in {Ok, WouldBlock} ==> exists j | i <= j < i + n :: replies(j).err == l.err)
    decreases n
  {
    if n > 0 {
      PassLeaves(c, dontblock, replies(i));
      var p := OnePass(c, dontblock, replies(i));
      if p.again {
        RunRefused(p.c, dontblock, replies, i + 1, n - 1);
      } else {
        PassRefused(c, dontblock, replies(i));
        assert i <= i < i + n;
      }
    }
  }

  /** A call that leaves the request outstanding was refused something. */
  lemma {:induction false} OutstandingRefused(c: Cursor, dontblock: bool, replies: nat -> Reply, n: nat, output: Err)
    requires Ready(c) && c.len == |Flatten(c.vectors)| && c.len > 0
    requires dontblock || c.vectors[|c.vectors| - 1] != []
    requires Run(c, dontblock, replies, 0, n).Done?
    ensures var l := Run(c, dontblock, replies, 0, n);
            Conclude(l.c, dontblock, l.err, output).finished || exists j | 0 <= j < n :: Refuses(replies(j))
  {
    UnfinishedHasMore(c, dontblock, replies, n, output);
    RunRefused(c, dontblock, replies, 0, n);
  }

  lemma {:induction false} PassRefused(c: Cursor, dontblock: bool, r: Reply)
    requires Aimed(c)
    ensures var p := OnePass(c, dontblock, r);
            && (!p.again && p.c.cnt > 0 ==> Refuses(r))
            && (p.err !in {Ok, WouldBlock} ==> p.err == r.err)
  {
  }

  /** The first pass already takes what there is room for. */
  lemma {:induction false} RunTakes(c: Cursor, dontblock: bool, replies: nat -> Reply, i: nat, n: nat)
    requires Ready(c) && n > 0 && replies(i).err == Ok
    ensures |Run(c, dontblock, replies, i, n).took| >= Min(Left(c, c.at), Min(MAX_U16, replies(i).sndbuf))
  {
    PassIsGreedy(c, dontblock, replies(i));
    RunMore(c, dontblock, replies, i, n - 1);
  }

  /** The assertion at line 1699: a pass stays inside the current vector. */
  predicate LengthAssert(c: Cursor, r: Reply) {
    InRange(c) && c.off + Min(Min(|c.vectors[c.at]| - c.off, MAX_U16), r.sndbuf) <= |c.vectors[c.at]|
  }

  ghost predicate LengthAsserts(c: Cursor, dontblock: bool, replies: nat -> Reply, i: nat, n: nat)
    decreases n, 0
  {
    n == 0 || (LengthAssert(c, replies(i))
               && NextLengths(OnePass(c, dontblock, replies(i)), dontblock, replies, i + 1, n - 1))
  }

  ghost predicate NextLengths(p: Pass, dontblock: bool, replies: nat -> Reply, i: nat, n: nat)
    decreases n, 1
  {
    p.again ==> LengthAsserts(p.c, dontblock, replies, i, n)
  }

  lemma {:induction false} NextHold(p: Pass, dontblock: bool, replies: nat -> Reply, i: nat, n: nat)
    requires p.again ==> Aimed(p.c)
    ensures NextLengths(p, dontblock, replies, i, n)
    decreases n, 1
  {
    if p.again {
      RunLengths(p.c, dontblock, replies, i, n);
    }
  }

  lemma {:induction false} RunLengths(c: Cursor, dontblock: bool, replies: nat -> Reply, i: nat, n: nat)
    requires Aimed(c)
    ensures LengthAsserts(c, dontblock, replies, i, n)
    decreases n, 0
  {
    if n > 0 {
      PassLeaves(c, dontblock, replies(i));
      NextHold(OnePass(c, dontblock, replies(i)), dontblock, replies, i + 1, n - 1);
    }
  }

  // ------------------------------------------------------------------ termination

  ghost predicate Exits(c: Cursor, dontblock: bool, replies: nat -> Reply, i: nat) {
    exists n: nat :: Run(c, dontblock, replies, i, n).Done?
  }

  /** No vector but the last has more than 16 bits' worth of bytes left. */
  ghost predicate StallFree(c: Cursor, dontblock: bool) {
    dontblock || forall i :: c.at <= i < |c.vectors| - 1 ==> Left(c, i) <= MAX_U16
  }

  lemma {:induction false} PassDescends(c: Cursor, dontblock: bool, r: Reply)
    requires Ready(c) && StallFree(c, dontblock)
    ensures var p := OnePass(c, dontblock, r);
            p.again ==> Ready(p.c) && StallFree(p.c, dontblock)
                        && (p.c.cnt < c.cnt || (p.c.cnt == c.cnt && Left(p.c, p.c.at) < Left(c, c.at)))
  {
    PassReady(c, dontblock, r);
    var p := OnePass(c, dontblock, r);
    if p.again && !dontblock {
      forall i | p.c.at <= i < |c.vectors| - 1 ensures Left(p.c, i) <= MAX_U16 {
        assert Left(c, i) <= MAX_U16;
      }
    }
  }

  lemma {:induction false} StallFreeExits(c: Cursor, dontblock: bool, replies: nat -> Reply, i: nat)
    requires Ready(c) && StallFree(c, dontblock)
    ensures Exits(c, dontblock, replies, i)
    decreases c.cnt, Left(c, c.at)
  {
    var p := OnePass(c, dontblock, replies(i));
    PassDescends(c, dontblock, replies(i));
    if p.again {
      StallFreeExits(p.c, dontblock, replies, i + 1);
      var n: nat :| Run(p.c, dontblock, replies, i + 1, n).Done?;
      assert Run(c, dontblock, replies, i, n + 1).Done?;
    } else {
      assert Run(c, dontblock, replies, i, 1).Done?;
    }
  }

  /** Answers that write the vectors before `k` whole, then `r` bytes of vector `k`, and
      then report an empty send buffer for ever. */
  function Starve(g: nat, r: u16, i: nat): Reply {
    Reply(if i < g then 0xffff else if i == g then r else 0, Ok)
  }

  ghost predicate Starving(replies: nat -> Reply, g: nat, r: u16) {
    forall i: nat :: replies(i) == Starve(g, r, i)
  }

  lemma {:induction false} WholeVector(c: Cursor)
    requires Ready(c) && c.cnt > 1 && Left(c, c.at) <= MAX_U16
    ensures var p := OnePass(c, false, Reply(0xffff, Ok));
            && p.again && Ready(p.c) && p.c.vectors == c.vectors
            && p.c.at == c.at + 1 && p.c.off == 0
  {
    PassReady(c, false, Reply(0xffff, Ok));
  }

  lemma {:induction false} DownToMultiple(c: Cursor, r: u16)
    requires Ready(c) && c.cnt > 1 && Left(c, c.at) > MAX_U16 && r == Left(c, c.at) % 0x1_0000
    ensures var p := OnePass(c, false, Reply(r, Ok));
            && p.again && Ready(p.c)
            && p.c.cnt == c.cnt && Left(p.c, p.c.at) > 0 && Left(p.c, p.c.at) % 0x1_0000 == 0
  {
    PassReady(c, false, Reply(r, Ok));
  }

  lemma {:induction false} StarvedAt(c: Cursor, replies: nat -> Reply, r: u16, i: nat, n: nat)
    requires Ready(c) && c.cnt > 1
    requires Left(c, c.at) > MAX_U16 && r == Left(c, c.at) % 0x1_0000
    requires Starving(replies, i, r)
    ensures Run(c, false, replies, i, n).Running?
  {
    if n > 0 {
      assert replies(i) == Reply(r, Ok);
      DownToMultiple(c, r);
      StarvedForever(OnePass(c, false, replies(i)).c, replies, i, r, i + 1, n - 1);
    }
  }

  lemma {:induction false} Starved(c: Cursor, k: nat, replies: nat -> Reply, r: u16, i: nat, n: nat)
    requires Ready(c) && c.at <= k < |c.vectors| - 1
    requires forall j :: c.at <= j < k ==> Left(c, j) <= MAX_U16
    requires Left(c, k) > MAX_U16 && r == Left(c, k) % 0x1_0000
    requires Starving(replies, i + (k - c.at), r)
    ensures Run(c, false, replies, i, n).Running?
    decreases n
  {
    if c.at == k {
      StarvedAt(c, replies, r, i, n);
    } else if n > 0 {
      assert Left(c, c.at) <= MAX_U16;
      assert replies(i) == Reply(0xffff, Ok);
      WholeVector(c);
      var d := OnePass(c, false, replies(i)).c;
      forall j | d.at <= j <= k ensures Left(d, j) == Left(c, j) {
      }
      Starved(d, k, replies, r, i + 1, n - 1);
    }
  }

  lemma {:induction false} StarvedForever(c: Cursor, replies: nat -> Reply, g: nat, r: u16, i: nat, n: nat)
    requires Ready(c) && c.cnt > 1
    requires Starving(replies, g, r) && i > g
    requires Left(c, c.at) > 0 && Left(c, c.at) % 0x1_0000 == 0
    ensures Run(c, false, replies, i, n).Running?
    decreases n
  {
    if n > 0 {
      assert replies(i) == Reply(0, Ok);
      assert OnePass(c, false, replies(i)).c == c;
      StarvedForever(c, replies, g, r, i + 1, n - 1);
    }
  }

  lemma {:induction false} LargeVectorStalls(c: Cursor) returns (env: nat -> Reply)
    requires Ready(c) && !StallFree(c, false)
    ensures !Exits(c, false, env, 0)
  {
    var k := FirstLarge(c);
    var g: nat, r: u16 := k - c.at, Left(c, k) % 0x1_0000;
    env := (i: nat) => Starve(g, r, i);
    forall n: nat ensures Run(c, false, env, 0, n).Running? {
      Starved(c, k, env, r, 0, n);
    }
  }

  /** The loop ends for every behaviour of the stack if and only if the write does not
      block or every vector before the last has at most 65535 bytes left: the loop test
      compares with `(u16_t)diff`, which a larger vector can bring to 0 (line 1706). */
  lemma {:induction false} TerminatesIff(c: Cursor, dontblock: bool)
    requires Ready(c)
    ensures (forall replies: nat -> Reply :: Exits(c, dontblock, replies, 0)) <==> StallFree(c, dontblock)
  {
    if StallFree(c, dontblock) {
      forall replies: nat -> Reply ensures Exits(c, dontblock, replies, 0) {
        StallFreeExits(c, dontblock, replies, 0);
      }
    } else {
      var env := LargeVectorStalls(c);
    }
  }

  lemma {:induction false} FirstLarge(c: Cursor) returns (k: nat)
    requires Ready(c) && !StallFree(c, false)
    ensures c.at <= k < |c.vectors| - 1 && Left(c, k) > MAX_U16
    ensures forall j :: c.at <= j < k ==> Left(c, j) <= MAX_U16
  {
    k := c.at;
    while Left(c, k) <= MAX_U16
      invariant c.at <= k < |c.vectors|
      invariant forall j :: c.at <= j < k ==> Left(c, j) <= MAX_U16
      decreases |c.vectors| - k
    {
      k := k + 1;
    }
  }

  // ------------------------------------------------------- the end of one call

  /** What follows the loop (lines 1743-1802): is the request finished, with which error? */
  datatype Verdict = Verdict(finished: bool, err: Err)

  function Conclude(c: Cursor, dontblock: bool, err: Err, output: Err): Verdict {
    if err == Ok then
      if output == Rte then Verdict(true, Rte)
      else Verdict(c.offset == c.len || dontblock, Ok)
    else if err == Mem then
      if output == Rte then Verdict(true, Rte)
      else if dontblock then Verdict(true, if c.offset == 0 then WouldBlock else Ok)
      else Verdict(false, Mem)
    else Verdict(true, err)
  }

  /** The result of a call: an error that is not ERR_MEM ends the request with that error, and so
      does ERR_RTE of `tcp_output`; ERR_OK means that everything was written, or something
      without waiting; ERR_WOULDBLOCK that nothing could be; and the request stays outstanding
      exactly when it may block, is not complete and nothing but room is missing. */
  lemma {:induction false} ConcludeIff(c: Cursor, dontblock: bool, err: Err, output: Err)
    ensures var v := Conclude(c, dontblock, err, output);
            && (err !in {Ok, Mem} ==> v == Verdict(true, err))
            && (err in {Ok, Mem} && output == Rte ==> v == Verdict(true, Rte))
            && (v == Verdict(true, Ok) <==>
                  && output != Rte
                  && ((err == Ok && (c.offset == c.len || dontblock)) || (err == Mem && dontblock && c.offset > 0)))
            && (v == Verdict(true, WouldBlock) <==>
                  err == WouldBlock || (err == Mem && dontblock && c.offset == 0 && output != Rte))
            && (!v.finished <==> !dontblock && output != Rte && (err == Mem || (err == Ok && c.offset != c.len)))
  {
  }

  /** The request as a whole: a blocking write that reports ERR_OK wrote everything; a
      non-blocking one always finishes in the first call, reports ERR_WOULDBLOCK only if
      nothing was written and ERR_OK only if something was. */
  lemma {:induction false} CallResult(c: Cursor, dontblock: bool, replies: nat -> Reply, n: nat, output: Err)
    requires Ready(c) && c.len == |Flatten(c.vectors)| && c.len > 0
    requires Run(c, dontblock, replies, 0, n).Done?
    ensures var l := Run(c, dontblock, replies, 0, n);
            var v := Conclude(l.c, dontblock, l.err, output);
            && (v.finished && v.err == Ok && !dontblock ==> l.c.offset == c.len)
            && (dontblock ==> v.finished)
            && (v.err == WouldBlock ==> dontblock && l.c.offset == 0)
            && (v.err == Ok && v.finished ==> l.c.offset > 0)
  {
    var l := Run(c, dontblock, replies, 0, n);
    RunConserves(c, dontblock, replies, 0, n);
    RunEnds(c, dontblock, replies, 0, n);
    LoopResult(l.c, dontblock, l.err, output);
  }

  lemma {:induction false} LoopResult(c: Cursor, dontblock: bool, err: Err, output: Err)
    requires c.len == |Flatten(c.vectors)| && c.len > 0 && EndOk(c, dontblock, err)
    ensures var v := Conclude(c, dontblock, err, output);
            && (v.finished && v.err == Ok && !dontblock ==> c.offset == c.len)
            && (dontblock ==> v.finished)
            && (v.err == WouldBlock ==> dontblock && c.offset == 0)
            && (v.err == Ok && v.finished ==> c.offset > 0)
  {
  }

  /** The assertion at line 1655 when the request is resumed. */
  ghost predicate AlwaysResumable(c: Cursor, dontblock: bool) {
    forall replies: nat -> Reply, n: nat, output: Err ::
      var l := Run(c, dontblock, replies, 0, n);
      l.Done? && !Conclude(l.c, dontblock, l.err, output).finished ==> l.c.offset < c.len && l.c.cnt > 0
  }

  lemma {:induction false} RestNonEmpty(c: Cursor)
    requires Ready(c) && c.vectors[|c.vectors| - 1] != []
    ensures c.offset < |Flatten(c.vectors)|
  {
    FlattenSplit(c.vectors, c.at);
    if c.at < |c.vectors| - 1 {
      var rest := c.vectors[c.at + 1..];
      FlattenSplit(rest, |rest| - 1);
    }
  }

  ghost predicate Filling(replies: nat -> Reply, g: nat) {
    forall i: nat :: replies(i) == Reply(0xffff, if i < g then Ok else Mem)
  }

  lemma {:induction false} FillPass(c: Cursor)
    requires Ready(c) && c.cnt > 1
    ensures var p := OnePass(c, false, Reply(0xffff, Ok));
            && p.again && Ready(p.c) && p.c.vectors == c.vectors && p.c.len == c.len
            && (p.c.cnt < c.cnt || (p.c.cnt == c.cnt && Left(p.c, p.c.at) < Left(c, c.at)))
  {
    PassReady(c, false, Reply(0xffff, Ok));
  }

  /** The loop ended with ERR_MEM and nothing left to write. */
  ghost predicate EndsFull(c: Cursor, l: Loop) { l.Done? && l.err == Mem && l.c.offset == |Flatten(c.vectors)| }

  lemma {:induction false} FillLast(c: Cursor, replies: nat -> Reply, i: nat)
    requires Ready(c) && c.cnt == 1 && c.vectors[c.at] == [] && replies(i) == Reply(0xffff, Mem)
    ensures EndsFull(c, Run(c, false, replies, i, 1))
  {
    FlattenSplit(c.vectors, c.at);
    assert c.vectors[c.at + 1..] == [];
    RunMore(c, false, replies, i, 0);
  }

  lemma {:induction false} FillOne(c: Cursor, replies: nat -> Reply, i: nat, n: nat)
    requires Ready(c) && c.cnt > 1 && replies(i) == Reply(0xffff, Ok)
    requires var d := OnePass(c, false, Reply(0xffff, Ok)).c; EndsFull(d, Run(d, false, replies, i + 1, n))
    ensures EndsFull(c, Run(c, false, replies, i, n + 1))
  {
    FillPass(c);
    RunMore(c, false, replies, i, n);
  }

  ghost predicate FullFrom(c: Cursor, replies: nat -> Reply, i: nat, g: nat)
    requires g >= i
  {
    EndsFull(c, Run(c, false, replies, i, g - i + 1))
  }

  ghost predicate AlwaysFull(c: Cursor, i: nat, g: nat)
    requires g >= i
  {
    forall replies: nat -> Reply | Filling(replies, g) :: FullFrom(c, replies, i, g)
  }

  lemma {:induction false} AlwaysFullLast(c: Cursor, i: nat)
    requires Ready(c) && c.cnt == 1 && c.vectors[|c.vectors| - 1] == []
    ensures AlwaysFull(c, i, i)
  {
    forall replies: nat -> Reply | Filling(replies, i) ensures FullFrom(c, replies, i, i) {
      FillLast(c, replies, i);
    }
  }

  lemma {:induction false} FullFromMore(c: Cursor, replies: nat -> Reply, i: nat, g: nat)
    requires Ready(c) && c.cnt > 1 && g >= i + 1 && replies(i) == Reply(0xffff, Ok)
    requires FullFrom(OnePass(c, false, Reply(0xffff, Ok)).c, replies, i + 1, g)
    ensures FullFrom(c, replies, i, g)
  {
    FillOne(c, replies, i, g - i);
  }

  lemma {:induction false} AlwaysFullMore(c: Cursor, d: Cursor, i: nat, g: nat)
    requires Ready(c) && c.cnt > 1 && g >= i + 1 && d == OnePass(c, false, Reply(0xffff, Ok)).c
    requires AlwaysFull(d, i + 1, g)
    ensures AlwaysFull(c, i, g)
  {
    forall replies: nat -> Reply | Filling(replies, g) ensures FullFrom(c, replies, i, g) {
      assert FullFrom(d, replies, i + 1, g);
      FullFromMore(c, replies, i, g);
    }
  }

  /** With a full send buffer the loop reaches the last vector, and can fail there. */
  lemma {:induction false} FillToLast(c: Cursor, i: nat) returns (g: nat)
    requires Ready(c) && c.vectors[|c.vectors| - 1] == []
    ensures g >= i && AlwaysFull(c, i, g)
    decreases c.cnt, Left(c, c.at)
  {
    if c.cnt == 1 {
      g := i;
      AlwaysFullLast(c, i);
    } else {
      FillPass(c);
      var d := OnePass(c, false, Reply(0xffff, Ok)).c;
      g := FillToLast(d, i + 1);
      AlwaysFullMore(c, d, i, g);
    }
  }

  /** A request can always be resumed if and only if it does not block or its last vector
      is not empty: otherwise ERR_MEM from the zero-length last `tcp_write` leaves a request
      outstanding that has nothing left to write. */
  lemma {:induction false} ResumableIff(c: Cursor, dontblock: bool)
    requires Ready(c) && c.len == |Flatten(c.vectors)| && c.len > 0
    ensures AlwaysResumable(c, dontblock) <==> dontblock || c.vectors[|c.vectors| - 1] != []
  {
    if dontblock || c.vectors[|c.vectors| - 1] != [] {
      forall replies: nat -> Reply, n: nat, output: Err | Run(c, dontblock, replies, 0, n).Done?
        ensures var l := Run(c, dontblock, replies, 0, n);
                !Conclude(l.c, dontblock, l.err, output).finished ==> l.c.offset < c.len && l.c.cnt > 0
      {
        UnfinishedHasMore(c, dontblock, replies, n, output);
      }
    } else {
      NotResumable(c);
    }
  }

  lemma {:induction false} UnfinishedHasMore(c: Cursor, dontblock: bool, replies: nat -> Reply, n: nat, output: Err)
    requires Ready(c) && c.len == |Flatten(c.vectors)| && c.len > 0
    requires dontblock || c.vectors[|c.vectors| - 1] != []
    requires Run(c, dontblock, replies, 0, n).Done?
    ensures var l := Run(c, dontblock, replies, 0, n);
            !Conclude(l.c, dontblock, l.err, output).finished ==> l.c.offset < c.len && l.c.cnt > 0
  {
    var l := Run(c, dontblock, replies, 0, n);
    RunConserves(c, dontblock, replies, 0, n);
    RunEnds(c, dontblock, replies, 0, n);
    UnfinishedLoop(c, dontblock, l, output);
  }

  /** When exactly a call leaves the request outstanding. */
  lemma {:induction false} UnfinishedIff(c: Cursor, dontblock: bool, replies: nat -> Reply, n: nat, output: Err)
    requires Ready(c) && c.len == |Flatten(c.vectors)| && c.len > 0
    requires dontblock || c.vectors[|c.vectors| - 1] != []
    requires Run(c, dontblock, replies, 0, n).Done?
    ensures var l := Run(c, dontblock, replies, 0, n);
            !Conclude(l.c, dontblock, l.err, output).finished
            <==> !dontblock && output != Rte && l.err in {Ok, Mem} && l.c.offset < c.len
  {
    UnfinishedHasMore(c, dontblock, replies, n, output);
    RunConserves(c, dontblock, replies, 0, n);
    var l := Run(c, dontblock, replies, 0, n);
    ConcludeIff(l.c, dontblock, l.err, output);
  }

  lemma {:induction false} UnfinishedLoop(c: Cursor, dontblock: bool, l: Loop, output: Err)
    requires l.Done? && Took(c, l.c, l.took) && EndOk(l.c, dontblock, l.err)
    requires c.len == |Flatten(c.vectors)| && |c.vectors| > 0 && (dontblock || c.vectors[|c.vectors| - 1] != [])
    ensures !Conclude(l.c, dontblock, l.err, output).finished ==> l.c.offset < c.len && l.c.cnt > 0
  {
    UnfinishedAt(l.c, dontblock, l.err, output);
  }

  lemma {:induction false} UnfinishedAt(c: Cursor, dontblock: bool, err: Err, output: Err)
    requires Positioned(c) && c.len == |Flatten(c.vectors)| && EndOk(c, dontblock, err)
    requires dontblock || c.vectors[|c.vectors| - 1] != []
    ensures !Conclude(c, dontblock, err, output).finished ==> c.offset < c.len && c.cnt > 0
  {
    if c.cnt == 0 {
      AtEnd(c);
    } else if !dontblock {
      RestNonEmpty(c);
    }
  }

  lemma {:induction false} AtEnd(c: Cursor)
    requires Positioned(c) && c.cnt == 0
    ensures c.offset == |Flatten(c.vectors)|
  {
    FlattenSplit(c.vectors, c.at);
    assert c.vectors[c.at + 1..] == [];
  }

  lemma {:induction false} NotResumable(c: Cursor)
    requires Ready(c) && c.len == |Flatten(c.vectors)| && c.vectors[|c.vectors| - 1] == []
    ensures !AlwaysResumable(c, false)
  {
    var g := FillToLast(c, 0);
    var env := (i: nat) => Reply(0xffff, if i < g then Ok else Mem);
    assert Filling(env, g);
    var l := Run(c, false, env, 0, g - 0 + 1);
    assert FullFrom(c, env, 0, g);
    assert !Conclude(l.c, false, l.err, Ok).finished && l.c.offset == c.len;
  }

  // ------------------------------------------------------------ the loop itself

  /** The loop so far, after `n` passes, seen from its start. */
  ghost predicate SoFar(c0: Cursor, dontblock: bool, replies: nat -> Reply, n: nat, c: Cursor, took: seq<byte>) {
    forall m: nat {:trigger Run(c, dontblock, replies, n, m)} ::
      Run(c0, dontblock, replies, 0, n + m) == Prepend(took, Run(c, dontblock, replies, n, m))
  }

  lemma {:induction false} PrependBoth(a: seq<byte>, b: seq<byte>, l: Loop)
    ensures Prepend(a, Prepend(b, l)) == Prepend(a + b, l)
  {
    Regroup(a, b, l.took);
  }

  lemma {:induction false} SoFarStep(c0: Cursor, dontblock: bool, replies: nat -> Reply, n: nat, c: Cursor,
      took: seq<byte>, m: nat)
    requires SoFar(c0, dontblock, replies, n, c, took)
    ensures var p := OnePass(c, dontblock, replies(n));
            Run(c0, dontblock, replies, 0, n + 1 + m)
            == Then(p.(took := took + p.took), Run(p.c, dontblock, replies, n + 1, m))
  {
    var p := OnePass(c, dontblock, replies(n));
    var rest := Run(p.c, dontblock, replies, n + 1, m);
    RunMore(c, dontblock, replies, n, m);
    PrependBoth(took, p.took, rest);
    assert n + 1 + m == n + (m + 1);
  }

  lemma {:induction false} SoFarAgain(c0: Cursor, dontblock: bool, replies: nat -> Reply, n: nat, c: Cursor,
      took: seq<byte>, p: Pass)
    requires SoFar(c0, dontblock, replies, n, c, took) && p == OnePass(c, dontblock, replies(n)) && p.again
    ensures SoFar(c0, dontblock, replies, n + 1, p.c, took + p.took)
  {
    forall m: nat {:trigger Run(p.c, dontblock, replies, n + 1, m)}
      ensures Run(c0, dontblock, replies, 0, n + 1 + m)
              == Prepend(took + p.took, Run(p.c, dontblock, replies, n + 1, m))
    {
      SoFarStep(c0, dontblock, replies, n, c, took, m);
    }
  }

  lemma {:induction false} SoFarNext(c0: Cursor, dontblock: bool, replies: nat -> Reply, n: nat, c: Cursor,
      took: seq<byte>)
    requires SoFar(c0, dontblock, replies, n, c, took)
    ensures var p := OnePass(c, dontblock, replies(n));
            if p.again then SoFar(c0, dontblock, replies, n + 1, p.c, took + p.took)
            else Run(c0, dontblock, replies, 0, n + 1) == Done(p.c, took + p.took, p.err)
  {
    var p := OnePass(c, dontblock, replies(n));
    if p.again {
      SoFarAgain(c0, dontblock, replies, n, c, took, p);
    } else {
      SoFarStep(c0, dontblock, replies, n, c, took, 0);
    }
  }

  /** The do/while loop of `lwip_netconn_do_writemore`. */
  method Writemore(c0: Cursor, dontblock: bool, replies: nat -> Reply)
    returns (c: Cursor, err: Err, took: seq<byte>, n: nat)
    requires Ready(c0) && StallFree(c0, dontblock)
    ensures Run(c0, dontblock, replies, 0, n) == Done(c, took, err)
    ensures c0.offset <= c.offset <= |Flatten(c0.vectors)|
    ensures Flatten(c0.vectors)[..c.offset] == Flatten(c0.vectors)[..c0.offset] + took
  {
    c, took, n, err := c0, [], 0, Ok;
    var again := true;
    while again
      invariant again ==> SoFar(c0, dontblock, replies, n, c, took) && Ready(c) && StallFree(c, dontblock)
      invariant !again ==> Run(c0, dontblock, replies, 0, n) == Done(c, took, err)
      decreases again, c.cnt, if again then Left(c, c.at) else 0
    {
      PassDescends(c, dontblock, replies(n));
      SoFarNext(c0, dontblock, replies, n, c, took);
      var d, t, e, more := SendPiece(c, dontblock, replies(n));
      c, took, err, again, n := d, took + t, e, more, n + 1;
    }
    RunConserves(c0, dontblock, replies, 0, n);
  }

  /** The body of the loop, in the order of lines 1677-1725. */
  method SendPiece(c0: Cursor, dontblock: bool, r: Reply)
    returns (c: Cursor, took: seq<byte>, err: Err, again: bool)
    requires InRange(c0)
    ensures Pass(c, took, err, again) == OnePass(c0, dontblock, r)
  {
    c, took, again := c0, [], false;
    var diff := |c.vectors[c.at]| - c.off;
    var len := if diff > MAX_U16 then MAX_U16 else diff;
    if r.sndbuf < len {
      len := r.sndbuf;
      if dontblock && len == 0 {
        err := if c.offset == 0 then WouldBlock else Ok;
        return;
      }
    }
    var writeMore := (len == MAX_U16 && diff > MAX_U16) || (len == diff % 0x1_0000 && c.cnt > 1);
    err := r.err;
    if err == Ok {
      took := c.vectors[c.at][c.off..c.off + len];
      c := c.(offset := c.offset + len);
      c := c.(off := c.off + len);
      if c.off == |c.vectors[c.at]| && c.cnt > 0 {
        c := c.(cnt := c.cnt - 1);
        if c.cnt > 0 {
          c := c.(at := c.at + 1);
          c := c.(off := 0);
        }
      }
    }
    again := writeMore && err == Ok;
  }

  // ------------------------------------------------------------ the length check

  const SIZE_RANGE: nat := 0x1_0000_0000_0000_0000
  const SSIZE_MAX: nat := 0x7fff_ffff_ffff_ffff

  function Total(lens: seq<nat>): nat {
    if lens == [] then 0 else Total(lens[..|lens| - 1]) + lens[|lens| - 1]
  }

  lemma {:induction false} TotalMonotone(lens: seq<nat>, i: nat)
    requires i <= |lens|
    ensures Total(lens[..i]) <= Total(lens)
    decreases |lens| - i
  {
    if i < |lens| {
      assert lens[..i + 1][..i] == lens[..i];
      TotalMonotone(lens, i + 1);
    } else {
      assert lens[..i] == lens;
    }
  }

  datatype Prelude = Refused(err: Err) | NothingToDo | Send(size: nat)

  /** The checks of `netconn_write_vectors_partly` before the message is sent. The sum is
      kept in a 64-bit `size_t` that wraps; the test in the loop refuses exactly the
      vectors whose true total does not fit. */
  method CheckVectors(lens: seq<nat>, dontblock: bool, wantsWritten: bool) returns (r: Prelude)
    requires forall i :: 0 <= i < |lens| ==> lens[i] < SIZE_RANGE
    ensures r == Refused(Val)
       <==> (!wantsWritten && (dontblock || Total(lens) > SSIZE_MAX)) || Total(lens) >= SIZE_RANGE
    ensures r.Refused? ==> r.err == Val
    ensures r.NothingToDo? ==> Total(lens) == 0
    ensures r.Send? ==> 0 < r.size && r.size == Min(Total(lens), SSIZE_MAX)
  {
    if dontblock && !wantsWritten {
      return Refused(Val);
    }
    var size := 0;
    for i := 0 to |lens|
      invariant size == Total(lens[..i]) < SIZE_RANGE
    {
      size := (size + lens[i]) % SIZE_RANGE;
      assert lens[..i + 1][..i] == lens[..i];
      if size < lens[i] {
        TotalMonotone(lens, i + 1);
        return Refused(Val);
      }
    }
    assert lens[..|lens|] == lens;
    if size == 0 {
      return NothingToDo;
    } else if size > SSIZE_MAX {
      if !wantsWritten {
        return Refused(Val);
      }
      size := SSIZE_MAX;
    }
    r := Send(size);
  }
}
