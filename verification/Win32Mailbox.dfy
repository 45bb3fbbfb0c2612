/** The mailbox of contrib/ports/win32/sys_arch.c: a ring buffer behind a counting semaphore.
    Posting is one critical section, but a fetch first takes a token from the semaphore and
    pops the ring later, in a critical section of its own, so any number of threads can be
    between the two. */
module Win32Mailbox {

  type Tid = nat

  /** `mem` is q_mem, `sem` the semaphore's count; `claims` are the threads that hold a token
      but have not popped yet; `posted` and `popped` record history. */
  datatype Ring<T> = Ring(mem: seq<T>, head: nat, tail: nat, sem: nat, claims: set<Tid>, posted: seq<T>, popped: seq<T>)

  function Next(n: nat, i: nat): nat { if i + 1 >= n then 0 else i + 1 }

  predicate Shaped<T>(r: Ring<T>) { r.head < |r.mem| && r.tail < |r.mem| }

  /** The queued messages, oldest first. */
  function Contents<T>(r: Ring<T>): seq<T>
    requires Shaped(r)
  {
    if r.tail <= r.head then r.mem[r.tail..r.head] else r.mem[r.tail..] + r.mem[..r.head]
  }

  predicate Full<T>(r: Ring<T>)
    requires Shaped(r)
  {
    |Contents(r)| == |r.mem| - 1
  }

  function New<T>(mem: seq<T>): Ring<T> { Ring(mem, 0, 0, 0, {}, [], []) }

  /** What both posts do once they store the message. */
  function Put<T>(r: Ring<T>, msg: T): Ring<T>
    requires Shaped(r)
  {
    r.(mem := r.mem[r.head := msg], head := Next(|r.mem|, r.head), sem := r.sem + 1, posted := r.posted + [msg])
  }

  function TryPut<T>(r: Ring<T>, msg: T): Ring<T>
    requires Shaped(r)
  {
    if Next(|r.mem|, r.head) == r.tail then r else Put(r, msg)
  }

  /** A poll of the semaphore: takes a token if there is one. */
  function Claim<T>(r: Ring<T>, t: Tid): Ring<T> {
    if r.sem == 0 then r else r.(sem := r.sem - 1, claims := r.claims + {t})
  }

  function Pop<T>(r: Ring<T>, t: Tid): Ring<T>
    requires Shaped(r)
  {
    r.(tail := Next(|r.mem|, r.tail), claims := r.claims - {t}, popped := r.popped + [r.mem[r.tail]])
  }

  // -------------------------------------------------------------- one operation

  lemma {:induction false} PutContents<T>(r: Ring<T>, msg: T)
    requires Shaped(r) && !Full(r)
    ensures Contents(Put(r, msg)) == Contents(r) + [msg]
  {
  }

  lemma {:induction false} PopContents<T>(r: Ring<T>, t: Tid)
    requires Shaped(r) && Contents(r) != []
    ensures Contents(r) == [r.mem[r.tail]] + Contents(Pop(r, t))
  {
  }

  /** The test of `sys_mbox_trypost` and the assertion "mbox is full!" of `sys_mbox_post` refuse
      a message if and only if the ring holds one message less than it has slots. */
  lemma {:induction false} FullIff<T>(r: Ring<T>)
    requires Shaped(r)
    ensures Next(|r.mem|, r.head) == r.tail <==> Full(r)
    ensures |Contents(r)| <= |r.mem| - 1
  {
  }

  /** The precondition of the plain post is needed: posting into a full ring loses every
      message that was queued. */
  lemma {:induction false} PutIntoFullLosesAll<T>(r: Ring<T>, msg: T)
    requires Shaped(r)
    ensures Contents(Put(r, msg)) == Contents(r) + [msg] <==> !Full(r)
    ensures Full(r) ==> Contents(Put(r, msg)) == []
  {
    if !Full(r) {
      PutContents(r, msg);
    }
  }

  // -------------------------------------------------------------- runs

  datatype Event<T> = Post(msg: T) | TryPost(msg: T) | Wait(t: Tid) | Take(t: Tid)

  function Step<T>(r: Ring<T>, e: Event<T>): (r': Ring<T>)
    requires Shaped(r)
    ensures Shaped(r') && |r'.mem| == |r.mem|
  {
    match e
    case Post(msg) => Put(r, msg)
    case TryPost(msg) => TryPut(r, msg)
    case Wait(t) => Claim(r, t)
    case Take(t) => Pop(r, t)
  }

  /** Plain posts go into a ring that is not full; a thread polls the semaphore only when it has
      no claim, and pops exactly when it has one. */
  ghost predicate StepOk<T>(r: Ring<T>, e: Event<T>)
    requires Shaped(r)
  {
    match e
    case Post(msg) => !Full(r)
    case TryPost(msg) => true
    case Wait(t) => t !in r.claims
    case Take(t) => t in r.claims
  }

  function Run<T>(r: Ring<T>, es: seq<Event<T>>): Ring<T>
    requires Shaped(r)
    decreases |es|
  {
    if es == [] then r else Run(Step(r, es[0]), es[1..])
  }

  ghost predicate RunOk<T>(r: Ring<T>, es: seq<Event<T>>)
    requires Shaped(r)
    decreases |es|
  {
    es == [] || (StepOk(r, es[0]) && RunOk(Step(r, es[0]), es[1..]))
  }

  /** The reference: a bounded queue on which each operation is atomic. */
  function QueueStep<T>(n: nat, q: seq<T>, e: Event<T>): seq<T> {
    match e
    case Post(msg) => q + [msg]
    case TryPost(msg) => if |q| + 1 >= n then q else q + [msg]
    case Wait(t) => q
    case Take(t) => if q == [] then [] else q[1..]
  }

  function QueueRun<T>(n: nat, q: seq<T>, es: seq<Event<T>>): seq<T>
    decreases |es|
  {
    if es == [] then q else QueueRun(n, QueueStep(n, q, es[0]), es[1..])
  }

  /** First in, first out, and every queued message is backed by a token or by a claim. */
  ghost predicate Inv<T>(r: Ring<T>) {
    && Shaped(r)
    && r.popped + Contents(r) == r.posted
    && |Contents(r)| == r.sem + |r.claims|
  }

  /** No pop meets an empty ring. */
  lemma {:induction false} ClaimHasMessage<T>(r: Ring<T>, t: Tid)
    requires Inv(r) && t in r.claims
    ensures Contents(r) != []
  {
    assert r.claims != {};
  }

  lemma {:induction false} PutKeeps<T>(r: Ring<T>, msg: T)
    requires Inv(r) && !Full(r)
    ensures Inv(Put(r, msg))
  {
    PutContents(r, msg);
  }

  lemma {:induction false} PopKeeps<T>(r: Ring<T>, t: Tid)
    requires Inv(r) && t in r.claims
    ensures Inv(Pop(r, t)) && Contents(r) != [] && Contents(Pop(r, t)) == Contents(r)[1..]
  {
    ClaimHasMessage(r, t);
    PopContents(r, t);
    assert r.popped + [r.mem[r.tail]] + Contents(Pop(r, t)) == r.posted;
  }

  lemma {:induction false} StepKeeps<T>(r: Ring<T>, e: Event<T>)
    requires Inv(r) && StepOk(r, e)
    ensures Inv(Step(r, e))
    ensures Contents(Step(r, e)) == QueueStep(|r.mem|, Contents(r), e)
  {
    FullIff(r);
    match e {
      case Post(msg) =>
        PutKeeps(r, msg);
        PutContents(r, msg);
      case TryPost(msg) =>
        if !Full(r) {
          PutKeeps(r, msg);
          PutContents(r, msg);
        }
      case Wait(t) =>
      case Take(t) => PopKeeps(r, t);
    }
  }

  lemma {:induction false} RunKeeps<T>(r: Ring<T>, es: seq<Event<T>>)
    requires Inv(r) && RunOk(r, es)
    ensures Shaped(Run(r, es)) && Inv(Run(r, es)) && |Run(r, es).mem| == |r.mem|
    ensures Contents(Run(r, es)) == QueueRun(|r.mem|, Contents(r), es)
    decreases |es|
  {
    if es != [] {
      StepKeeps(r, es[0]);
      RunKeeps(Step(r, es[0]), es[1..]);
    }
  }

  /** Every run of any number of posting and fetching threads is a run of the atomic bounded
      queue: what was popped is a prefix of what was posted and the ring holds the rest; the
      ring never holds more than one less than its size, so the semaphore stays below its
      maximum and releasing it never fails. */
  lemma {:induction false} BoundedFifo<T>(mem: seq<T>, es: seq<Event<T>>)
    requires mem != [] && RunOk(New(mem), es)
    ensures var r := Run(New(mem), es);
            && Shaped(r)
            && r.popped + Contents(r) == r.posted
            && Contents(r) == QueueRun(|mem|, [], es)
            && |Contents(r)| == r.sem + |r.claims| <= |mem| - 1
            && r.sem < |mem|
            && (forall t | t in r.claims :: Contents(r) != [])
            && (r.sem == 0 <==> |Contents(r)| == |r.claims|)
  {
    RunKeeps(New(mem), es);
    var r := Run(New(mem), es);
    FullIff(r);
    forall t | t in r.claims ensures Contents(r) != [] {
      ClaimHasMessage(r, t);
    }
  }

  // -------------------------------------------------------------- the code

  class Mailbox<T> {
    const mem: array<T>
    var head: nat
    var tail: nat
    var sem: nat
    ghost var claims: set<Tid>
    ghost var posted: seq<T>
    ghost var popped: seq<T>

    ghost function View(): Ring<T>
      reads this, mem
    {
      Ring(mem[..], head, tail, sem, claims, posted, popped)
    }

    /** `sys_mbox_new` */
    constructor (size: nat, zero: T)
      requires size > 0
      ensures fresh(mem) && View() == New(seq(size, _ => zero)) && Inv(View())
    {
      mem := new T[size](_ => zero);
      head, tail, sem := 0, 0, 0;
      claims, posted, popped := {}, [], [];
      new;
      assert mem[..] == seq(size, _ => zero);
    }

    /** `sys_mbox_post` */
    method Post(msg: T)
      requires Inv(View()) && !Full(View())
      modifies this, mem
      ensures View() == old(Put(View(), msg)) && Inv(View())
    {
      StepKeeps(View(), Event.Post(msg));
      FullIff(View());
      mem[head] := msg;
      head := head + 1;
      if head >= mem.Length {
        head := 0;
      }
      assert head != tail;
      assert sem < mem.Length;
      sem := sem + 1;
      posted := posted + [msg];
    }

    /** `sys_mbox_trypost` */
    method TryPost(msg: T) returns (ok: bool)
      requires Inv(View())
      modifies this, mem
      ensures View() == old(TryPut(View(), msg)) && Inv(View())
      ensures ok <==> !old(Full(View()))
      ensures old(Shaped(View())) && Contents(View()) == old(Contents(View())) + if ok then [msg] else []
    {
      StepKeeps(View(), Event.TryPost(msg));
      FullIff(View());
      var newHead := head + 1;
      if newHead >= mem.Length {
        newHead := 0;
      }
      if newHead == tail {
        return false;
      }
      PutContents(View(), msg);
      mem[head] := msg;
      head := newHead;
      assert head != tail;
      sem := sem + 1;
      posted := posted + [msg];
      return true;
    }

    /** The poll of the semaphore in `sys_arch_mbox_tryfetch`, and the successful wait of
        `sys_arch_mbox_fetch`. */
    method WaitForSem(t: Tid) returns (got: bool)
      requires Inv(View()) && t !in claims
      modifies this
      ensures View() == old(Claim(View(), t)) && Inv(View())
      ensures got <==> t in claims
      ensures !got <==> old(|Contents(View())| == |claims|)
    {
      StepKeeps(View(), Wait(t));
      if sem > 0 {
        sem := sem - 1;
        claims := claims + {t};
        return true;
      }
      return false;
    }

    /** The critical section of both fetches. */
    method TakeClaimed(t: Tid) returns (msg: T)
      requires Inv(View()) && t in claims
      modifies this
      ensures View() == old(Pop(View(), t)) && Inv(View())
      ensures old(|popped| < |posted|) && msg == old(posted[|popped|])
    {
      StepKeeps(View(), Take(t));
      ClaimHasMessage(View(), t);
      PopContents(View(), t);
      msg := mem[tail];
      tail := tail + 1;
      if tail >= mem.Length {
        tail := 0;
      }
      claims := claims - {t};
      popped := popped + [msg];
    }
  }
}
