/** The uniprocessor kernel as a step system: threads, the ready list, interrupt levels,
    semaphores, locks and condition variables (threads/thread.cc, threads/scheduler.cc,
    threads/synch.cc, and the ticks of machine/interrupt.cc). */
module Kernels {
  import opened Common

  type Tid = nat
  type Lock = nat
  type Cond = nat

  /** A semaphore of the clients or devices, or the one inside a lock. */
  datatype Sem = Plain(n: nat) | OfLock(l: Lock)

  /** The lists a blocked thread can be on. */
  datatype Queue = SemQueue(m: Sem) | CondQueue(c: Cond)

  /** What a thread does when the semaphore operation it is in returns. `on` is the interrupt
      level at which Wait was called. */
  datatype Cont =
    | ToClient
    | ToOwner(l: Lock)            // in Acquire: mark the owner
    | ToSleep(c: Cond, l: Lock, on: bool)   // in Wait: join the condition's queue

  /** Where in the kernel a thread is. `was` is the interrupt level it will restore. */
  datatype Pc =
    | Unborn                                  // constructed, not yet forked
    | Start                                   // forked: will enable interrupts and run
    | Client                                  // outside the kernel
    | PTest(m: Sem, was: bool, k: Cont)       // in P, about to test the value
    | PWait(m: Sem, was: bool, k: Cont)       // in P, in Sleep or back from it
    | VBody(m: Sem, was: bool, k: Cont)       // in V, interrupts off
    | Tick(k: Cont)                           // in OneTick, handlers firing
    | YieldBody(was: bool, k: Cont)           // in Yield, interrupts off
    | YieldBack(was: bool, k: Cont)           // in Yield, switched out or back from it
    | SetOwner(l: Lock)                       // in Acquire, after P has returned
    | CallV(l: Lock, k: Cont)                 // in Release, owner cleared, before V
    | Join(c: Cond, l: Lock, on: bool)        // in Wait, lock released
    | CondWait(c: Cond, l: Lock)              // in Wait, in Sleep or back from it
    | Finished                                // in Finish, in Sleep for good
    | Gone                                    // destructed

  datatype Status = JustCreated | Running | Ready | Blocked | Destroyed

  datatype Tcb = Tcb(pc: Pc, status: Status)

  /** What has happened so far; no step depends on it. `holder` is the thread that has taken
      a lock's semaphore and not given it back. */
  datatype Log = Log(enqueued: seq<Tid>, dispatched: seq<Tid>, ps: map<Sem, nat>, vs: map<Sem, nat>,
                     holder: map<Lock, Option<Tid>>)

  datatype Kernel = Kernel(
    threads: map<Tid, Tcb>,
    current: Tid,
    ready: seq<Tid>,
    queues: map<Queue, seq<Tid>>,
    value: map<Sem, nat>,
    owner: map<Lock, Option<Tid>>,
    level: bool,                    // true when interrupts are enabled
    yieldOnReturn: bool,
    doomed: Option<Tid>,            // threadToBeDestroyed
    log: Log)

  function QueueAt(s: Kernel, q: Queue): seq<Tid> {
    if q in s.queues then s.queues[q] else []
  }

  /** The shape every state has: the running thread exists, every lock has its semaphore,
      and the log covers them. */
  ghost predicate Formed(s: Kernel) {
    && s.current in s.threads
    && (forall l :: l in s.owner ==> OfLock(l) in s.value && l in s.log.holder)
    && (forall l :: OfLock(l) in s.value ==> l in s.owner)
    && (forall m :: m in s.value ==> m in s.log.ps && m in s.log.vs)
  }

  function Me(s: Kernel): Tcb
    requires s.current in s.threads
  {
    s.threads[s.current]
  }

  // ---------------------------------------------------------------- pieces of steps

  /** The running thread moves on, still running. */
  function Goto(s: Kernel, pc: Pc): Kernel {
    s.(threads := s.threads[s.current := Tcb(pc, Running)])
  }

  function After(k: Cont): Pc {
    match k
    case ToClient => Client
    case ToOwner(l) => SetOwner(l)
    case ToSleep(c, l, on) => Join(c, l, on)
  }

  /** `SetLevel(was)` with interrupts off, then return: enabling them is a tick. */
  function Return(s: Kernel, was: bool, k: Cont): Kernel {
    Goto(s, if was then Tick(k) else After(k))
  }

  /** Scheduler::ReadyToRun. */
  function MakeReady(s: Kernel, t: Tid): Kernel
    requires t in s.threads
  {
    s.(threads := s.threads[t := s.threads[t].(status := Ready)],
       ready := s.ready + [t],
       log := s.log.(enqueued := s.log.enqueued + [t]))
  }

  /** Take the first thread off a queue, if there is one, and make it ready. */
  function Wake(s: Kernel, q: Queue): Kernel
    requires QueueAt(s, q) != [] ==> QueueAt(s, q)[0] in s.threads
  {
    var ts := QueueAt(s, q);
    if ts == [] then s else MakeReady(s.(queues := s.queues[q := ts[1..]]), ts[0])
  }

  /** The body of Semaphore::V. */
  function Release1(s: Kernel, m: Sem): Kernel
    requires Formed(s) && m in s.value
    requires QueueAt(s, SemQueue(m)) != [] ==> QueueAt(s, SemQueue(m))[0] in s.threads
  {
    var s1 := Wake(s, SemQueue(m));
    s1.(value := s1.value[m := s1.value[m] + 1],
        log := s1.log.(vs := s1.log.vs[m := s1.log.vs[m] + 1],
                       holder := if m.OfLock? then s1.log.holder[m.l := None] else s1.log.holder))
  }

  /** The successful exit of the loop in Semaphore::P. */
  function Take1(s: Kernel, m: Sem): Kernel
    requires Formed(s) && m in s.value && s.value[m] > 0
  {
    s.(value := s.value[m := s.value[m] - 1],
       log := s.log.(ps := s.log.ps[m := s.log.ps[m] + 1],
                     holder := if m.OfLock? then s.log.holder[m.l := Some(s.current)] else s.log.holder))
  }

  /** Append the running thread to a queue and enter Sleep. */
  function Block(s: Kernel, q: Queue, pc: Pc): Kernel {
    s.(threads := s.threads[s.current := Tcb(pc, Blocked)],
       queues := s.queues[q := QueueAt(s, q) + [s.current]])
  }

  /** Scheduler::FindNextToRun, and Run up to SWITCH. */
  function Switch(s: Kernel): Kernel
    requires s.ready != [] && s.ready[0] in s.threads
  {
    var next := s.ready[0];
    s.(threads := s.threads[next := s.threads[next].(status := Running)],
       current := next,
       ready := s.ready[1..],
       log := s.log.(dispatched := s.log.dispatched + [next]))
  }

  /** The rest of Run: a thread that was switched out in Run destroys the carcass that is
      waiting. A new thread starts elsewhere and does not. */
  function Bury(s: Kernel): Kernel
    requires s.current in s.threads
  {
    if Me(s).pc == Start || s.doomed.None? then s
    else s.(threads := s.threads[s.doomed.value := Tcb(Gone, Destroyed)], doomed := None)
  }

  function Dispatch(s: Kernel): Kernel
    requires s.ready != [] && s.ready[0] in s.threads
  {
    Bury(Switch(s))
  }

  // ---------------------------------------------------------------- steps

  /** A step: a call by the running client, the next piece of the kernel code it is in, or an
      interrupt handler while a tick or, in Sleep, the idle loop fires them. */
  datatype Action =
    | UserInstruction                 // Machine::Run: a tick after an instruction
    | CallSetLevel(on: bool)
    | CallNew(t: Tid)                 // construct a Thread
    | CallFork(t: Tid)
    | CallP(n: nat)
    | CallVPlain(n: nat)
    | CallAcquire(l: Lock)
    | CallRelease(l: Lock)
    | CallYield
    | CallFinish
    | CallWait(c: Cond, l: Lock)
    | CallSignal(c: Cond, l: Lock)
    | CallBroadcast(c: Cond, l: Lock)
    | Continue
    | DeviceV(n: nat)                 // a handler calls V
    | DeviceYield                     // the timer's handler asks for a context switch

  /** In Sleep: the running thread has given up the processor, which is not yet elsewhere. */
  predicate Asleep(s: Kernel)
    requires s.current in s.threads
  {
    Me(s).status != Running
  }

  /** What can happen next. Sleep asserts that interrupts are off: a thread that comes to it from
      Wait with them on can do nothing more, nor can anybody else. */
  predicate Enabled(s: Kernel, a: Action)
    requires Formed(s)
  {
    var me := Me(s);
    var client := me == Tcb(Client, Running);
    match a
    case UserInstruction => client && s.level
    case CallSetLevel(on) => client
    case CallNew(t) => client && t !in s.threads
    case CallFork(t) => client && t in s.threads && s.threads[t] == Tcb(Unborn, JustCreated)
    case CallP(n) => client && Plain(n) in s.value
    case CallVPlain(n) => client && Plain(n) in s.value
    case CallAcquire(l) => client && l in s.owner && s.owner[l] != Some(s.current)
    case CallRelease(l) => client && l in s.owner && s.owner[l] == Some(s.current)
    case CallYield => client
    case CallFinish => client
    case CallWait(c, l) => client && l in s.owner && s.owner[l] == Some(s.current)
    case CallSignal(c, l) => client && l in s.owner && s.owner[l] == Some(s.current)
    case CallBroadcast(c, l) => client && l in s.owner && s.owner[l] == Some(s.current)
    case Continue => if Asleep(s) then s.ready != [] else me.pc != Client && !(me.pc.Join? && s.level)
    case DeviceV(n) => Plain(n) in s.value && (me.pc.Tick? || Asleep(s))
    case DeviceYield => me.pc.Tick?
  }

  /** Wake every thread of a queue, first to last. */
  function WakeAll(s: Kernel, q: Queue): Kernel
    requires forall t :: t in QueueAt(s, q) ==> t in s.threads
    decreases |QueueAt(s, q)|
  {
    if QueueAt(s, q) == [] then s else WakeAll(Wake(s, q), q)
  }

  /** Threads on lists exist. */
  ghost predicate Closed(s: Kernel) {
    && (forall t :: t in s.ready ==> t in s.threads)
    && (forall q, t :: t in QueueAt(s, q) ==> t in s.threads)
    && (s.doomed.Some? ==> s.doomed.value in s.threads)
  }

  /** One pass of the loop in Semaphore::P. */
  function TestValue(s: Kernel, m: Sem, was: bool, k: Cont): Kernel
    requires Formed(s) && m in s.value
  {
    if s.value[m] == 0 then Block(s, SemQueue(m), PWait(m, was, k))
    else Return(Take1(s, m), was, k)
  }

  function DoContinue(s: Kernel): Kernel
    requires Formed(s) && Closed(s) && Enabled(s, Continue) && PcKnown(s)
  {
    if Asleep(s) then Dispatch(s)
    else match Me(s).pc
      case Start => Goto(s, Tick(ToClient))
      case PTest(m, was, k) => TestValue(s, m, was, k)
      case PWait(m, was, k) => TestValue(s, m, was, k)
      case VBody(m, was, k) => Return(Release1(s, m), was, k)
      case Tick(k) =>
        if s.yieldOnReturn then Goto(s.(yieldOnReturn := false), YieldBody(true, k))
        else Goto(s.(level := true), After(k))
      case YieldBody(was, k) =>
        if s.ready == [] then Return(s, was, k)
        else Dispatch(MakeReady(Goto(s, YieldBack(was, k)), s.current))
      case YieldBack(was, k) => Return(s, was, k)
      case SetOwner(l) => Goto(s.(owner := s.owner[l := Some(s.current)]), Client)
      case CallV(l, k) => Goto(s.(level := false), VBody(OfLock(l), s.level, k))
      case Join(c, l, _) => Block(s, CondQueue(c), CondWait(c, l))
      case CondWait(c, l) => Goto(s, PTest(OfLock(l), s.level, ToOwner(l)))
      case _ => s
  }

  /** The semaphore or lock that a thread is working on exists. */
  predicate PcKnown(s: Kernel)
    requires s.current in s.threads
  {
    match Me(s).pc
    case PTest(m, _, _) => m in s.value
    case PWait(m, _, _) => m in s.value
    case VBody(m, _, _) => m in s.value
    case _ => true
  }

  function Apply(s: Kernel, a: Action): Kernel
    requires Formed(s) && Closed(s) && PcKnown(s) && Enabled(s, a)
  {
    match a
    case UserInstruction => Goto(s.(level := false), Tick(ToClient))
    case CallSetLevel(on) =>
      if on && !s.level then Goto(s, Tick(ToClient)) else s.(level := on)
    case CallNew(t) => s.(threads := s.threads[t := Tcb(Unborn, JustCreated)])
    case CallFork(t) =>
      Return(MakeReady(s.(level := false, threads := s.threads[t := Tcb(Start, Ready)]), t), s.level, ToClient)
    case CallP(n) => Goto(s.(level := false), PTest(Plain(n), s.level, ToClient))
    case CallVPlain(n) => Goto(s.(level := false), VBody(Plain(n), s.level, ToClient))
    case CallAcquire(l) => Goto(s.(level := false), PTest(OfLock(l), s.level, ToOwner(l)))
    case CallRelease(l) => Goto(s.(owner := s.owner[l := None]), CallV(l, ToClient))
    case CallYield => Goto(s.(level := false), YieldBody(s.level, ToClient))
    case CallFinish =>
      s.(level := false, doomed := Some(s.current), threads := s.threads[s.current := Tcb(Finished, Blocked)])
    case CallWait(c, l) => Goto(s.(owner := s.owner[l := None]), CallV(l, ToSleep(c, l, s.level)))
    case CallSignal(c, l) => Return(Wake(s, CondQueue(c)).(level := false), s.level, ToClient)
    case CallBroadcast(c, l) => Return(WakeAll(s, CondQueue(c)).(level := false), s.level, ToClient)
    case Continue => DoContinue(s)
    case DeviceV(n) => Release1(s, Plain(n))
    case DeviceYield => s.(yieldOnReturn := true)
  }

  ghost predicate AllFree(holders: map<Lock, Option<Tid>>, locks: set<Lock>) {
    holders.Keys == locks && forall l :: l in locks ==> holders[l].None?
  }

  ghost predicate AllZero(counts: map<Sem, nat>, init: map<Sem, nat>) {
    counts.Keys == init.Keys && forall m :: m in init ==> counts[m] == 0
  }

  /** The kernel starts with one thread, in its own code, and every lock free. */
  ghost predicate IsInitial(s: Kernel, init: map<Sem, nat>, locks: set<Lock>) {
    && s.threads == map[0 := Tcb(Client, Running)] && s.current == 0 && s.ready == [] && s.queues == map[]
    && s.value == init && AllFree(s.owner, locks) && s.level && !s.yieldOnReturn && s.doomed.None?
    && s.log.enqueued == [] && s.log.dispatched == []
    && AllZero(s.log.ps, init) && AllZero(s.log.vs, init) && AllFree(s.log.holder, locks)
  }
}
