/** What every step of the kernel keeps, beyond the places of threads: interrupt levels,
    semaphores, locks, and the order of the ready list. */
module KernelInvariants {
  import opened Common
  import opened Kernels
  import opened KernelPlaces

  // ---------------------------------------------------------------- control positions

  ghost predicate KnownCont(s: Kernel, k: Cont) {
    match k
    case ToClient => true
    case ToOwner(l) => l in s.owner
    case ToSleep(_, l, _) => l in s.owner
  }

  /** A position that some call leads to: P returns to its caller, V inside Wait restores the
      level of the call, and the semaphores and locks named exist. */
  ghost predicate PcOk(s: Kernel, pc: Pc) {
    match pc
    case PTest(m, _, k) => m in s.value && KnownCont(s, k) && k == if m.OfLock? then ToOwner(m.l) else ToClient
    case PWait(m, _, k) => m in s.value && KnownCont(s, k) && k == if m.OfLock? then ToOwner(m.l) else ToClient
    case VBody(m, was, k) =>
      m in s.value && KnownCont(s, k) && (k == ToClient || (m.OfLock? && k.ToSleep? && k.l == m.l && k.on == was))
    case Tick(k) => KnownCont(s, k) && (k.ToSleep? ==> k.on)
    case YieldBody(was, k) => KnownCont(s, k) && (k.ToSleep? ==> k.on && was)
    case YieldBack(was, k) => KnownCont(s, k) && (k.ToSleep? ==> k.on && was)
    case SetOwner(l) => l in s.owner
    case CallV(l, k) => l in s.owner && (k == ToClient || (k.ToSleep? && k.l == l))
    case Join(_, l, _) => l in s.owner
    case CondWait(_, l) => l in s.owner
    case _ => true
  }

  ghost predicate Pcs(s: Kernel) {
    forall t :: t in s.threads ==> PcOk(s, s.threads[t].pc)
  }

  /** Where the running thread may have interrupts enabled. */
  ghost predicate MayBeOn(tcb: Tcb) {
    tcb.status == Running && (tcb.pc.Client? || tcb.pc.SetOwner? || tcb.pc.CallV? || tcb.pc.Join?)
  }

  ghost predicate Level(s: Kernel)
    requires s.current in s.threads
  {
    s.level ==> MayBeOn(Me(s))
  }

  /** The level that a thread in Wait is to have: the one it called Wait with. */
  ghost function LevelIn(pc: Pc): Option<bool> {
    match pc
    case CallV(_, ToSleep(_, _, on)) => Some(on)
    case Join(_, _, on) => Some(on)
    case _ => None
  }

  ghost predicate WaitLevel(s: Kernel)
    requires s.current in s.threads
  {
    Me(s).status == Running && LevelIn(Me(s).pc).Some? ==> s.level == LevelIn(Me(s).pc).value
  }

  // ---------------------------------------------------------------- semaphores

  /** The threads taken off the semaphore's queue that have not yet looked at the value again. */
  ghost function Woken(s: Kernel, m: Sem): set<Tid> {
    set t | t in s.threads && IsWoken(s.threads[t], m)
  }

  ghost predicate IsWoken(tcb: Tcb, m: Sem) {
    tcb.status != Blocked && tcb.pc.PWait? && tcb.pc.m == m
  }

  ghost predicate Counted(s: Kernel, init: map<Sem, nat>)
    requires Formed(s)
  {
    && s.value.Keys == init.Keys
    && forall m :: m in s.value ==> s.value[m] + s.log.ps[m] == init[m] + s.log.vs[m]
  }

  /** No wakeup is lost: with a thread still queued, there are no more units than threads on
      their way to take one. */
  ghost predicate NoLostWakeup(s: Kernel) {
    forall m :: m in s.value && QueueAt(s, SemQueue(m)) != [] ==> s.value[m] <= |Woken(s, m)|
  }

  // ---------------------------------------------------------------- locks

  /** The lock whose semaphore the thread has taken without being its owner: P has taken it
      and the owner is not yet set, or the owner is cleared and V has not yet given it back. */
  ghost function PartOf(pc: Pc): Option<Lock> {
    match pc
    case Tick(ToOwner(l)) => Some(l)
    case YieldBody(_, ToOwner(l)) => Some(l)
    case YieldBack(_, ToOwner(l)) => Some(l)
    case SetOwner(l) => Some(l)
    case CallV(l, _) => Some(l)
    case VBody(OfLock(l), _, _) => Some(l)
    case _ => None
  }

  /** The lock that a thread at this position does not own. */
  ghost function Avoids(pc: Pc): Option<Lock> {
    match pc
    case PTest(OfLock(l), _, _) => Some(l)
    case PWait(OfLock(l), _, _) => Some(l)
    case Tick(ToSleep(_, l, _)) => Some(l)
    case YieldBody(_, ToSleep(_, l, _)) => Some(l)
    case YieldBack(_, ToSleep(_, l, _)) => Some(l)
    case Join(_, l, _) => Some(l)
    case CondWait(_, l) => Some(l)
    case _ => PartOf(pc)
  }

  /** The thread is between P's decrement inside Acquire and V's increment inside Release. */
  ghost predicate Holds(s: Kernel, l: Lock, t: Tid)
    requires l in s.owner
  {
    s.owner[l] == Some(t) || (t in s.threads && PartOf(s.threads[t].pc) == Some(l))
  }

  ghost predicate Held(s: Kernel, l: Lock)
    requires Formed(s) && l in s.owner
  {
    && s.value[OfLock(l)] == (if s.log.holder[l].None? then 1 else 0)
    && (forall t: Tid :: Holds(s, l, t) <==> s.log.holder[l] == Some(t))
    && (forall t :: t in s.threads && Avoids(s.threads[t].pc) == Some(l) ==> s.owner[l] != Some(t))
  }

  ghost predicate Locks(s: Kernel)
    requires Formed(s)
  {
    forall l :: l in s.owner ==> Held(s, l)
  }

  // ---------------------------------------------------------------- order

  ghost predicate Fifo(s: Kernel) {
    s.log.enqueued == s.log.dispatched + s.ready
  }

  ghost predicate Inv(s: Kernel, init: map<Sem, nat>) {
    && Formed(s) && Threads(s) && Lists(s)
    && Pcs(s) && Level(s) && WaitLevel(s)
    && Counted(s, init) && NoLostWakeup(s)
    && Locks(s)
    && Fifo(s)
  }
}
