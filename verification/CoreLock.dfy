/** The core lock of contrib/ports/freertos/sys_arch.c: a recursive mutex plus an 8-bit counter
    and a holder variable that only the core-locking check reads. Locking, unlocking and
    checking are several steps each, and steps of different threads interleave. */
module CoreLock {
  import opened Lwip

  type Tid = nat

  /** Where a thread is: waiting for the mutex, before the holder is set, before the count goes
      up; before the holder is cleared, before the mutex is given back; or between the two reads
      of the check, with the outcome of the first. */
  datatype Pc = Idle | Entering | Marking | Counting | Clearing | Giving | Checking(matched: bool)

  datatype Lock = Lock(owner: Option<Tid>, depth: nat, count: nat, holder: Option<Tid>, pc: map<Tid, Pc>)

  function PcOf(s: Lock, t: Tid): Pc { if t in s.pc then s.pc[t] else Idle }

  function NewLock(): Lock { Lock(None, 0, 0, None, map[]) }

  function Goto(s: Lock, t: Tid, pc: Pc): Lock { s.(pc := s.pc[t := pc]) }

  datatype Event =
    | CallLock(t: Tid) | TakeMutex(t: Tid) | MarkHolder(t: Tid) | CountUp(t: Tid)
    | CountDown(t: Tid) | ClearHolder(t: Tid) | GiveMutex(t: Tid)
    | ReadHolder(t: Tid) | ReadCount(t: Tid)

  function Step(s: Lock, e: Event): Lock {
    match e
    case CallLock(t) => Goto(s, t, Entering)
    case TakeMutex(t) => Goto(s.(owner := Some(t), depth := s.depth + 1), t, Marking)
    case MarkHolder(t) => Goto(if s.count == 0 then s.(holder := Some(t)) else s, t, Counting)
    case CountUp(t) => Goto(s.(count := (s.count + 1) % 256), t, Idle)
    case CountDown(t) => Goto(s.(count := (s.count + 255) % 256), t, Clearing)
    case ClearHolder(t) => Goto(if s.count == 0 then s.(holder := None) else s, t, Giving)
    case GiveMutex(t) =>
      Goto(if s.depth <= 1 then s.(owner := None, depth := 0) else s.(depth := s.depth - 1), t, Idle)
    case ReadHolder(t) => Goto(s, t, Checking(s.holder == Some(t)))
    case ReadCount(t) => Goto(s, t, Idle)
  }

  /** The scheduler and the mutex: a thread takes the mutex when it is free or its own. The
      callers: only the owner unlocks, and nobody nests deeper than `nesting`. */
  ghost predicate StepOk(nesting: nat, s: Lock, e: Event) {
    match e
    case CallLock(t) => PcOf(s, t) == Idle
    case TakeMutex(t) =>
      && PcOf(s, t) == Entering
      && (s.owner == None || (s.owner == Some(t) && s.depth < nesting)) && nesting > 0
    case MarkHolder(t) => PcOf(s, t) == Marking
    case CountUp(t) => PcOf(s, t) == Counting
    case CountDown(t) => PcOf(s, t) == Idle && s.owner == Some(t)
    case ClearHolder(t) => PcOf(s, t) == Clearing
    case GiveMutex(t) => PcOf(s, t) == Giving
    case ReadHolder(t) => PcOf(s, t) == Idle
    case ReadCount(t) => PcOf(s, t).Checking?
  }

  function Run(s: Lock, es: seq<Event>): Lock
    decreases |es|
  {
    if es == [] then s else Run(Step(s, es[0]), es[1..])
  }

  ghost predicate RunOk(nesting: nat, s: Lock, es: seq<Event>)
    decreases |es|
  {
    es == [] || (StepOk(nesting, s, es[0]) && RunOk(nesting, Step(s, es[0]), es[1..]))
  }

  predicate Inside(pc: Pc) { pc.Marking? || pc.Counting? || pc.Clearing? || pc.Giving? }

  /** The owner's nesting depth without a lock or unlock call it is in the middle of. */
  function Settled(s: Lock): int {
    if s.owner.Some? && Inside(PcOf(s, s.owner.value)) then s.depth - 1 else s.depth
  }

  /** What the check concludes if `t` reads the count now. */
  predicate Passes(s: Lock, t: Tid) { PcOf(s, t) == Checking(true) && s.count > 0 }

  ghost predicate HolderInv(s: Lock) {
    match s.owner
    case None => s.holder == None
    case Some(t) =>
      match PcOf(s, t)
      case Marking => s.holder == if s.depth > 1 then Some(t) else None
      case Giving => s.holder == if s.depth > 1 then Some(t) else None
      case _ => s.holder == Some(t)
  }

  ghost predicate Inv(s: Lock) {
    && (s.owner == None <==> s.depth == 0)
    && s.depth <= 255
    && s.count == Settled(s)
    && HolderInv(s)
    && (forall t: Tid :: Inside(PcOf(s, t)) ==> s.owner == Some(t))
    && (forall t: Tid :: PcOf(s, t).Checking? ==> (PcOf(s, t).matched <==> s.owner == Some(t)))
  }

  lemma {:induction false} StepKeeps(nesting: nat, s: Lock, e: Event)
    requires nesting <= 255 && Inv(s) && StepOk(nesting, s, e)
    ensures Inv(Step(s, e))
  {
    var s' := Step(s, e);
    assert forall t: Tid :: t != e.t ==> PcOf(s', t) == PcOf(s, t);
    match e {
      case TakeMutex(t) =>
      case GiveMutex(t) =>
      case _ =>
    }
  }

  lemma {:induction false} RunKeeps(nesting: nat, s: Lock, es: seq<Event>)
    requires nesting <= 255 && Inv(s) && RunOk(nesting, s, es)
    ensures Inv(Run(s, es))
    decreases |es|
  {
    if es != [] {
      StepKeeps(nesting, s, es[0]);
      RunKeeps(nesting, Step(s, es[0]), es[1..]);
    }
  }

  /** The check of every thread that is in the middle of one tells whether it owns the lock. */
  ghost predicate CheckExact(s: Lock) {
    forall t: Tid :: PcOf(s, t).Checking? ==> (Passes(s, t) <==> s.owner == Some(t))
  }

  /** For every interleaving of any number of threads the counter is the owner's settled depth,
      and the check passes exactly for the owner, even though it reads the two variables at
      different times and without the lock. */
  lemma {:induction false} CheckIsExact(nesting: nat, es: seq<Event>)
    requires nesting <= 255 && RunOk(nesting, NewLock(), es)
    ensures var s := Run(NewLock(), es);
            s.count == Settled(s) && CheckExact(s)
  {
    RunKeeps(nesting, NewLock(), es);
  }

  // ------------------------------------------------------------------ the bound on nesting

  /** One whole lock call of thread 0. */
  function LockOnce(): seq<Event> { [CallLock(0), TakeMutex(0), MarkHolder(0), CountUp(0)] }

  function LockTimes(n: nat): seq<Event> {
    if n == 0 then [] else LockTimes(n - 1) + LockOnce()
  }

  lemma {:induction false} RunSplit(nesting: nat, s: Lock, a: seq<Event>, b: seq<Event>)
    ensures Run(s, a + b) == Run(Run(s, a), b)
    ensures RunOk(nesting, s, a + b) <==> RunOk(nesting, s, a) && RunOk(nesting, Run(s, a), b)
    decreases |a|
  {
    if a == [] {
      assert a + b == b;
    } else {
      assert (a + b)[1..] == a[1..] + b;
      RunSplit(nesting, Step(s, a[0]), a[1..], b);
    }
  }

  lemma {:induction false} RunOne(nesting: nat, s: Lock, e: Event, es: seq<Event>)
    ensures Run(s, [e] + es) == Run(Step(s, e), es)
    ensures RunOk(nesting, s, [e] + es) <==> StepOk(nesting, s, e) && RunOk(nesting, Step(s, e), es)
  {
    assert ([e] + es)[1..] == es;
  }

  ghost predicate HeldBy0(s: Lock, n: nat) {
    && PcOf(s, 0) == Idle && s.depth == n && s.count == n % 256
    && s.owner == if n == 0 then None else Some(0)
  }

  /** The state after an undisturbed lock call. */
  function Locked(s: Lock, t: Tid): Lock {
    Step(Step(Step(Step(s, CallLock(t)), TakeMutex(t)), MarkHolder(t)), CountUp(t))
  }

  lemma {:induction false} RunFour(nesting: nat, s: Lock, a: Event, b: Event, c: Event, d: Event)
    requires StepOk(nesting, s, a) && StepOk(nesting, Step(s, a), b) && StepOk(nesting, Step(Step(s, a), b), c)
    requires StepOk(nesting, Step(Step(Step(s, a), b), c), d)
    ensures RunOk(nesting, s, [a, b, c, d]) && Run(s, [a, b, c, d]) == Step(Step(Step(Step(s, a), b), c), d)
  {
    assert [a, b, c, d] == [a] + [b, c, d] && [b, c, d] == [b] + [c, d] && [c, d] == [c] + [d] && [d] == [d] + [];
    RunOne(nesting, s, a, [b, c, d]);
    RunOne(nesting, Step(s, a), b, [c, d]);
    RunOne(nesting, Step(Step(s, a), b), c, [d]);
    RunOne(nesting, Step(Step(Step(s, a), b), c), d, []);
  }

  lemma {:induction false} LockedOnce(s: Lock, n: nat)
    requires HeldBy0(s, n)
    ensures HeldBy0(Locked(s, 0), n + 1)
  {
    assert (n % 256 + 1) % 256 == (n + 1) % 256;
  }

  lemma {:induction false} LockOnceWorks(nesting: nat, s: Lock, n: nat)
    requires n < nesting && HeldBy0(s, n)
    ensures RunOk(nesting, s, LockOnce()) && HeldBy0(Run(s, LockOnce()), n + 1)
  {
    RunFour(nesting, s, CallLock(0), TakeMutex(0), MarkHolder(0), CountUp(0));
    LockedOnce(s, n);
  }

  lemma {:induction false} LockTimesWorks(nesting: nat, n: nat)
    requires n <= nesting
    ensures RunOk(nesting, NewLock(), LockTimes(n)) && HeldBy0(Run(NewLock(), LockTimes(n)), n)
  {
    if n > 0 {
      LockTimesWorks(nesting, n - 1);
      LockOnceWorks(nesting, Run(NewLock(), LockTimes(n - 1)), n - 1);
      RunSplit(nesting, NewLock(), LockTimes(n - 1), LockOnce());
    }
  }

  ghost predicate AlwaysExact(nesting: nat) {
    forall es :: RunOk(nesting, NewLock(), es) ==> CheckExact(Run(NewLock(), es))
  }

  lemma {:induction false} ReadOnce(nesting: nat, s: Lock)
    requires HeldBy0(s, 256)
    ensures RunOk(nesting, s, [ReadHolder(0)]) && !CheckExact(Run(s, [ReadHolder(0)]))
  {
    RunOne(nesting, s, ReadHolder(0), []);
    assert [ReadHolder(0)] + [] == [ReadHolder(0)];
    var s' := Step(s, ReadHolder(0));
    assert PcOf(s', 0).Checking? && !Passes(s', 0) && s'.owner == Some(0);
  }

  lemma {:induction false} WrapsToZero(nesting: nat)
    requires nesting >= 256
    ensures var es := LockTimes(256) + [ReadHolder(0)];
            RunOk(nesting, NewLock(), es) && !CheckExact(Run(NewLock(), es))
  {
    LockTimesWorks(nesting, 256);
    ReadOnce(nesting, Run(NewLock(), LockTimes(256)));
    RunSplit(nesting, NewLock(), LockTimes(256), [ReadHolder(0)]);
  }

  /** The 8-bit counter is right up to 255 nested calls and no further: with 256 it wraps to
      zero and the check fails for the thread that owns the lock. */
  lemma {:induction false} ExactIffNestingFits(nesting: nat)
    ensures AlwaysExact(nesting) <==> nesting <= 255
  {
    if nesting <= 255 {
      forall es | RunOk(nesting, NewLock(), es) ensures CheckExact(Run(NewLock(), es)) {
        CheckIsExact(nesting, es);
      }
    } else {
      WrapsToZero(nesting);
    }
  }

  lemma {:induction false} LockKeeps(s: Lock, t: Tid)
    requires Inv(s) && PcOf(s, t) == Idle && (s.owner == None || (s.owner == Some(t) && s.depth < 255))
    ensures var l := Locked(s, t); Inv(l) && l.owner == Some(t) && l.holder == Some(t) && l.count == s.count + 1
  {
    var s1 := Step(s, CallLock(t));
    StepKeeps(255, s, CallLock(t));
    var s2 := Step(s1, TakeMutex(t));
    StepKeeps(255, s1, TakeMutex(t));
    StepKeeps(255, s2, MarkHolder(t));
    StepKeeps(255, Step(s2, MarkHolder(t)), CountUp(t));
  }

  // ------------------------------------------------------------------ the code

  /** The variables of the port, with the calls of one thread run without interference. */
  class Core {
    var owner: Option<Tid>
    var depth: nat
    var count: nat
    var holder: Option<Tid>
    ghost var pc: map<Tid, Pc>

    ghost function View(): Lock
      reads this
    {
      Lock(owner, depth, count, holder, pc)
    }

    constructor ()
      ensures View() == NewLock() && Inv(View())
    {
      owner, depth, count, holder, pc := None, 0, 0, None, map[];
    }

    /** `sys_lock_tcpip_core`; taking the mutex of another thread would wait. */
    method LockCore(t: Tid)
      requires Inv(View()) && PcOf(View(), t) == Idle
      requires owner == None || (owner == Some(t) && depth < 255)
      modifies this
      ensures View() == old(Locked(View(), t))
      ensures Inv(View()) && owner == Some(t) && holder == Some(t) && count == old(count) + 1
    {
      LockKeeps(View(), t);
      pc := pc[t := Entering];
      owner, depth, pc := Some(t), depth + 1, pc[t := Marking];
      if count == 0 {
        holder := Some(t);
      }
      pc := pc[t := Counting];
      count := (count + 1) % 256;
      pc := pc[t := Idle];
    }

    /** `sys_unlock_tcpip_core` */
    method UnlockCore(t: Tid)
      requires Inv(View()) && PcOf(View(), t) == Idle && owner == Some(t)
      modifies this
      ensures View() == old(Step(Step(Step(View(), CountDown(t)), ClearHolder(t)), GiveMutex(t)))
      ensures Inv(View()) && count == old(count) - 1
      ensures (owner == None <==> old(count) == 1) && (holder == None <==> owner == None)
    {
      StepKeeps(255, View(), CountDown(t));
      count := (count + 255) % 256;
      pc := pc[t := Clearing];
      StepKeeps(255, View(), ClearHolder(t));
      if count == 0 {
        holder := None;
      }
      pc := pc[t := Giving];
      StepKeeps(255, View(), GiveMutex(t));
      depth := depth - 1;
      if depth == 0 {
        owner := None;
      }
      pc := pc[t := Idle];
    }

    /** The assertion of `sys_check_core_locking`, once the stack thread is marked. */
    method CheckCore(t: Tid) returns (ok: bool)
      requires Inv(View()) && PcOf(View(), t) == Idle
      ensures ok <==> owner == Some(t)
    {
      ok := holder == Some(t) && count > 0;
    }
  }
}
