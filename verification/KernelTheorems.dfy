/** What clients of the kernel may rely on in every run, in terms of threads, locks and
    semaphores only. */
module KernelTheorems {
  import opened Common
  import opened Kernels
  import opened KernelPlaces
  import opened KernelInvariants
  import opened KernelSteps
  import opened KernelRuns
  import opened KernelEnds

  // ---------------------------------------------------------------- locks

  /** At most one thread is between the decrement inside Acquire and the increment inside
      Release of a lock; an owner is such a thread; and the lock's semaphore is at 1 exactly
      when there is none. */
  lemma MutualExclusion(run: seq<Kernel>, init: map<Sem, nat>, locks: set<Lock>, i: nat, l: Lock, t: Tid, u: Tid)
    requires IsRun(run, init, locks) && i < |run| && l in run[i].owner
    ensures Holds(run[i], l, t) && Holds(run[i], l, u) ==> t == u
    ensures run[i].owner[l].Some? ==> Holds(run[i], l, run[i].owner[l].value)
    ensures OfLock(l) in run[i].value
    ensures run[i].value[OfLock(l)] == 1 || run[i].value[OfLock(l)] == 0
    ensures run[i].value[OfLock(l)] == 1 <==> forall w: Tid :: !Holds(run[i], l, w)
  {
    RunInv(run, init, locks, i);
    var s := run[i];
    assert Held(s, l);
    hide Inv;
    if s.value[OfLock(l)] == 0 {
      assert Holds(s, l, s.log.holder[l].value);
    }
  }

  /** A thread back in Wait, about to take its lock again, does not own it: what Acquire asserts
      there holds. */
  lemma WaitMayReacquire(run: seq<Kernel>, init: map<Sem, nat>, locks: set<Lock>, i: nat, t: Tid)
    requires IsRun(run, init, locks) && i < |run| && t in run[i].threads && run[i].threads[t].pc.CondWait?
    ensures var l := run[i].threads[t].pc.l;
            l in run[i].owner && run[i].owner[l] != Some(t)
  {
    RunInv(run, init, locks, i);
    var s := run[i];
    assert PcOk(s, s.threads[t].pc);
    assert Held(s, s.threads[t].pc.l);
  }

  /** Only its owner, in Release or Wait, gives up a lock; and a lock is given to a thread
      only when nobody owns it. */
  lemma OwnerChanges(s: Kernel, a: Action, init: map<Sem, nat>, l: Lock)
    requires Inv(s, init) && Enabled(s, a) && l in s.owner
    ensures Closed(s) && PcKnown(s) && l in Apply(s, a).owner
    ensures Apply(s, a).owner[l] != s.owner[l] ==>
              if s.owner[l].Some?
              then s.owner[l] == Some(s.current) && Apply(s, a).owner[l].None? && (a == CallRelease(l) || (a.CallWait? && a.l == l))
              else Apply(s, a).owner[l] == Some(s.current) && a.Continue? && Me(s).pc == SetOwner(l)
  {
    InvReady(s, init);
    assert Held(s, l) && (Me(s).pc == SetOwner(l) ==> Holds(s, l, s.current) && s.owner[l] != Some(s.current));
    assert s.owner[l].Some? ==> Holds(s, l, s.owner[l].value);
    assert Me(s).pc.SetOwner? ==> PcOk(s, Me(s).pc);
    hide Inv, Held, Holds, PcOk;
    OwnerMoves(s, a, l);
  }

  lemma OwnerMoves(s: Kernel, a: Action, l: Lock)
    requires Formed(s) && Closed(s) && PcKnown(s) && Level(s) && Enabled(s, a) && l in s.owner
    requires Me(s).pc.SetOwner? ==> Me(s).pc.l in s.owner
    ensures var o := Apply(s, a).owner;
            && l in o
            && (o[l] == s.owner[l]
                || (o[l].None? && s.owner[l] == Some(s.current) && (a == CallRelease(l) || (a.CallWait? && a.l == l)))
                || (o[l] == Some(s.current) && a.Continue? && Me(s).pc == SetOwner(l)))
  {
    StepEffect(s, a);
    hide Formed, Closed, Apply;
  }

  // ---------------------------------------------------------------- who runs when

  /** Threads join the end of the ready list, and the processor changes hands only by a
      dispatch, with interrupts off. */
  ghost predicate Follows(s: Kernel, s': Kernel) {
    && s.log.enqueued <= s'.log.enqueued
    && ((s'.current == s.current && s'.log.dispatched == s.log.dispatched)
        || (s'.log.dispatched == s.log.dispatched + [s'.current] && !s.level && !s'.level))
  }

  /** Acquire, where it marks the owner, does that and nothing else to owners. */
  ghost predicate Marks(s: Kernel, owner: map<Lock, Option<Tid>>)
    requires s.current in s.threads
  {
    owner == if Me(s).pc.SetOwner? && !Asleep(s) then s.owner[Me(s).pc.l := Some(s.current)] else s.owner
  }

  lemma DispatchEffect(s: Kernel)
    requires !s.level && s.ready != [] && s.ready[0] in s.threads
    ensures Follows(s, Dispatch(s)) && Dispatch(s).owner == s.owner
  {
  }

  lemma GiveEffect(s: Kernel, m: Sem)
    requires Formed(s) && m in s.value
    requires QueueAt(s, SemQueue(m)) != [] ==> QueueAt(s, SemQueue(m))[0] in s.threads
    ensures Follows(s, Release1(s, m)) && Release1(s, m).owner == s.owner
  {
  }

  lemma ContinueEffect(s: Kernel)
    requires Formed(s) && Closed(s) && PcKnown(s) && Level(s) && Enabled(s, Continue)
    ensures Follows(s, DoContinue(s)) && Marks(s, DoContinue(s).owner)
  {
    assert s.current in s.threads && (s.ready != [] ==> s.ready[0] in s.ready && s.ready[0] in s.threads);
    hide Formed, Closed, Dispatch, Release1, TestValue, MakeReady, After;
    if Asleep(s) {
      DispatchEffect(s);
    } else {
      match Me(s).pc
      case PTest(m, was, k) => TestEffect(s, m, was, k);
      case PWait(m, was, k) => TestEffect(s, m, was, k);
      case VBody(m, was, k) =>
        QueueHead(s, SemQueue(m));
        GiveEffect(s, m);
      case Tick(_) => TickEffect(s);
      case YieldBody(_, _) => TickEffect(s);
      case YieldBack(_, _) => TickEffect(s);
      case _ => LockEffect(s);
    }
  }

  lemma LockEffect(s: Kernel)
    requires Formed(s) && Closed(s) && PcKnown(s) && Enabled(s, Continue) && !Asleep(s)
    requires Me(s).pc.SetOwner? || Me(s).pc.CallV? || Me(s).pc.Join? || Me(s).pc.CondWait? || Me(s).pc.Start?
             || Me(s).pc.Unborn? || Me(s).pc.Finished? || Me(s).pc.Gone?
    ensures Follows(s, DoContinue(s)) && Marks(s, DoContinue(s).owner)
  {
    hide Formed, Closed, QueueAt;
  }

  lemma TickEffect(s: Kernel)
    requires Formed(s) && Closed(s) && PcKnown(s) && Level(s) && Enabled(s, Continue)
    requires Me(s).pc.Tick? || Me(s).pc.YieldBody? || Me(s).pc.YieldBack?
    requires !Asleep(s)
    ensures Follows(s, DoContinue(s)) && Marks(s, DoContinue(s).owner)
  {
    assert s.current in s.threads && (s.ready != [] ==> s.ready[0] in s.ready && s.ready[0] in s.threads);
    hide Formed, Closed, Dispatch, MakeReady;
    if Me(s).pc.YieldBody? && s.ready != [] { YieldEffect(s, Me(s).pc.was, Me(s).pc.k); }
  }

  lemma TestEffect(s: Kernel, m: Sem, was: bool, k: Cont)
    requires Formed(s) && m in s.value
    ensures var s' := TestValue(s, m, was, k);
            s'.log.enqueued == s.log.enqueued && s'.log.dispatched == s.log.dispatched && s'.current == s.current && s'.owner == s.owner
  {
    hide Formed, QueueAt;
  }

  lemma YieldEffect(s: Kernel, was: bool, k: Cont)
    requires !s.level && s.ready != [] && s.ready[0] in s.threads
    ensures var s' := Dispatch(MakeReady(Goto(s, YieldBack(was, k)), s.current));
            Follows(s, s') && s'.owner == s.owner
  {
    DispatchEffect(MakeReady(Goto(s, YieldBack(was, k)), s.current));
    hide Dispatch;
  }

  lemma StepEffect(s: Kernel, a: Action)
    requires Formed(s) && Closed(s) && PcKnown(s) && Level(s) && Enabled(s, a)
    ensures var s' := Apply(s, a);
            && Follows(s, s')
            && (s'.owner == s.owner
                || (a.Continue? && Marks(s, s'.owner))
                || ((a.CallRelease? || a.CallWait?) && s.owner[a.l] == Some(s.current) && s'.owner == s.owner[a.l := None]))
  {
    hide Formed, DoContinue, WakeAll, Release1;
    match a
    case Continue => ContinueEffect(s);
    case CallSignal(c, _) =>
      QueueHead(s, CondQueue(c));
      WakeEffect(s, CondQueue(c));
    case CallBroadcast(c, _) =>
      ClosedQueue(s, CondQueue(c));
      WakeAllEffect(s, CondQueue(c));
    case DeviceV(n) =>
      QueueHead(s, SemQueue(Plain(n)));
      GiveEffect(s, Plain(n));
    case _ =>
    hide Closed, Wake, QueueAt;
  }

  lemma WakeEffect(s: Kernel, q: Queue)
    requires QueueAt(s, q) != [] ==> QueueAt(s, q)[0] in s.threads
    ensures var s' := Wake(s, q);
            s.log.enqueued <= s'.log.enqueued && s'.log.dispatched == s.log.dispatched && s'.current == s.current && s'.owner == s.owner
  {
  }

  lemma {:induction false} WakeAllEffect(s: Kernel, q: Queue)
    requires forall t :: t in QueueAt(s, q) ==> t in s.threads
    ensures var s' := WakeAll(s, q);
            s.log.enqueued <= s'.log.enqueued && s'.log.dispatched == s.log.dispatched && s'.current == s.current && s'.owner == s.owner
    decreases |QueueAt(s, q)|
  {
    if QueueAt(s, q) != [] { WakeAllEffect(Wake(s, q), q); }
  }

  /** One step of a run: the processor changes hands only with interrupts off, and the thread
      that then runs is the last one on the record of dispatches. */
  lemma RunFollows(run: seq<Kernel>, init: map<Sem, nat>, locks: set<Lock>, i: nat)
    requires IsRun(run, init, locks) && i + 1 < |run|
    ensures Follows(run[i], run[i + 1])
  {
    RunInv(run, init, locks, i);
    assert CanStep(run[i], run[i + 1]);
    var a :| Enabled(run[i], a) && run[i + 1] == Apply(run[i], a);
    StepEffect(run[i], a);
  }

  lemma {:induction false} LogsGrow(run: seq<Kernel>, init: map<Sem, nat>, locks: set<Lock>, i: nat, j: nat)
    requires IsRun(run, init, locks) && i <= j < |run|
    ensures run[i].log.enqueued <= run[j].log.enqueued && run[i].log.dispatched <= run[j].log.dispatched
  {
    hide IsRun, Follows;
    if i < j {
      LogsGrow(run, init, locks, i, j - 1);
      RunFollows(run, init, locks, j - 1);
      Extends(run[i], run[j - 1], run[j]);
    }
  }

  lemma Extends(r: Kernel, s: Kernel, s': Kernel)
    requires r.log.enqueued <= s.log.enqueued && r.log.dispatched <= s.log.dispatched && Follows(s, s')
    ensures r.log.enqueued <= s'.log.enqueued && r.log.dispatched <= s'.log.dispatched
  {
  }

  /** The scheduler is first come, first served: the thread at position k of the ready list
      is the one that the (k + 1)-st dispatch from then on runs, and interrupts are off then. */
  lemma FirstComeFirstServed(run: seq<Kernel>, init: map<Sem, nat>, locks: set<Lock>, i: nat, k: nat, j: nat)
    requires IsRun(run, init, locks) && i <= j && j + 1 < |run| && k < |run[i].ready|
    requires |run[j].log.dispatched| == |run[i].log.dispatched| + k
    requires |run[j + 1].log.dispatched| == |run[j].log.dispatched| + 1
    ensures run[j + 1].current == run[i].ready[k] && !run[j].level && !run[j + 1].level
  {
    hide IsRun, Inv;
    RunInv(run, init, locks, i);
    RunInv(run, init, locks, j + 1);
    LogsGrow(run, init, locks, i, j + 1);
    RunFollows(run, init, locks, j);
    InOrder(run[i], init);
    InOrder(run[j + 1], init);
    Served(run[i].log, run[i].ready, run[j + 1].log, run[j + 1].ready, k);
  }

  lemma InOrder(s: Kernel, init: map<Sem, nat>)
    requires Inv(s, init)
    ensures s.log.enqueued == s.log.dispatched + s.ready
  {
    hide Formed, Threads, Lists, Pcs, Level, WaitLevel, Counted, NoLostWakeup, Locks;
  }

  /** With threads dispatched in the order in which they were made ready, dispatch number k
      from now on is of the thread that is number k on the list now. */
  lemma Served(before: Log, ready: seq<Tid>, after: Log, ready': seq<Tid>, k: nat)
    requires before.enqueued == before.dispatched + ready && after.enqueued == after.dispatched + ready'
    requires before.enqueued <= after.enqueued && k < |ready|
    requires |after.dispatched| == |before.dispatched| + k + 1
    ensures after.dispatched[|after.dispatched| - 1] == ready[k]
  {
    var d := |before.dispatched| + k;
    assert after.dispatched[d] == after.enqueued[d];
    assert before.enqueued[d] == ready[k];
  }

  // ---------------------------------------------------------------- where threads are

  /** A thread is running, on the ready list once, on the queue of one semaphore or condition
      once, or on no list at all because it is not yet forked or has finished. */
  datatype Place = OnProcessor | OnReady | OnQueue(q: Queue) | Nowhere

  function PlaceOf(tcb: Tcb): Place {
    match tcb.status
    case Running => OnProcessor
    case Ready => OnReady
    case Blocked =>
      (match tcb.pc
       case PWait(m, _, _) => OnQueue(SemQueue(m))
       case CondWait(c, _) => OnQueue(CondQueue(c))
       case _ => Nowhere)
    case _ => Nowhere
  }

  lemma OnePlace(run: seq<Kernel>, init: map<Sem, nat>, locks: set<Lock>, i: nat, t: Tid, q: Queue)
    requires IsRun(run, init, locks) && i < |run| && t in run[i].threads
    ensures var s, p := run[i], PlaceOf(run[i].threads[t]);
            && (p.OnProcessor? ==> t == s.current)
            && multiset(s.ready)[t] == (if p.OnReady? then 1 else 0)
            && multiset(QueueAt(s, q))[t] == (if p == OnQueue(q) then 1 else 0)
  {
    RunInv(run, init, locks, i);
    var s := run[i];
    assert Fits(s.threads[t]);
    assert multiset(s.ready)[t] == if IsReady(s, t) then 1 else 0;
    assert multiset(QueueAt(s, q))[t] == if IsWaiting(s, t, q) then 1 else 0;
    hide IsRun, Inv, Lists;
  }

  /** Once finished, a thread is never again on the processor or on a list, however long the
      run goes on; once destroyed, it is not waiting to be destroyed either. */
  lemma DeadStayDead(run: seq<Kernel>, init: map<Sem, nat>, locks: set<Lock>, i: nat, j: nat, t: Tid, q: Queue)
    requires IsRun(run, init, locks) && i <= j < |run| && t in run[i].threads && Dead(run[i].threads[t].pc)
    ensures t in run[j].threads && Dead(run[j].threads[t].pc)
    ensures t !in run[j].ready && t !in QueueAt(run[j], q) && run[j].threads[t].status != Running
    ensures run[i].threads[t].pc.Gone? ==>
              run[j].threads[t].pc.Gone? && t != run[j].current && run[j].doomed != Some(t)
  {
    hide IsRun, Lists, QueueAt;
    StaysDead(run, init, locks, i, j, t);
    OnePlace(run, init, locks, j, t, q);
    RunInv(run, init, locks, j);
    OffLists(run[j], t, init);
    assert t in run[j].ready <==> t in multiset(run[j].ready);
    assert t in QueueAt(run[j], q) <==> t in multiset(QueueAt(run[j], q));
  }

  lemma OffLists(s: Kernel, t: Tid, init: map<Sem, nat>)
    requires Inv(s, init) && t in s.threads && Dead(s.threads[t].pc)
    ensures PlaceOf(s.threads[t]).Nowhere? && s.threads[t].status != Running
    ensures s.threads[t].pc.Gone? ==> t != s.current && s.doomed != Some(t)
  {
    assert Threads(s);
    hide Inv;
    assert Fits(s.threads[t]);
  }

  // ---------------------------------------------------------------- semaphores

  /** A semaphore's value is its initial value plus the Vs less the Ps completed; so there are
      never more completed Ps than units. */
  lemma UnitsConserved(run: seq<Kernel>, init: map<Sem, nat>, locks: set<Lock>, i: nat, m: Sem)
    requires IsRun(run, init, locks) && i < |run| && m in init
    ensures m in run[i].value && m in run[i].log.ps && m in run[i].log.vs
    ensures run[i].value[m] + run[i].log.ps[m] == init[m] + run[i].log.vs[m]
    ensures run[i].log.ps[m] <= init[m] + run[i].log.vs[m]
  {
    RunInv(run, init, locks, i);
  }

  /** No wakeup is lost: while a thread sleeps on a semaphore that has units, another thread has
      been woken to take one. With no thread ready to run, nobody sleeps on a semaphore with units. */
  lemma NoSleeperStranded(run: seq<Kernel>, init: map<Sem, nat>, locks: set<Lock>, i: nat, m: Sem)
    requires IsRun(run, init, locks) && i < |run| && m in run[i].value
    requires run[i].value[m] > 0 && QueueAt(run[i], SemQueue(m)) != []
    ensures exists t :: t in run[i].threads && IsWoken(run[i].threads[t], m)
                        && (t in run[i].ready || (t == run[i].current && !Asleep(run[i])))
  {
    RunInv(run, init, locks, i);
    var s := run[i];
    assert |Woken(s, m)| > 0;
    var t :| t in Woken(s, m);
    assert Fits(s.threads[t]);
    assert multiset(s.ready)[t] == if IsReady(s, t) then 1 else 0;
    assert t in s.ready <==> t in multiset(s.ready);
    hide IsRun, Inv, Lists;
    assert IsWoken(s.threads[t], m);
  }

  /** What one step does to a semaphore: nothing, or a V, or a P that found a unit. */
  ghost predicate Atomic(s: Kernel, s': Kernel, m: Sem)
    requires m in s.value && m in s.log.ps && m in s.log.vs
  {
    && m in s'.value && m in s'.log.ps && m in s'.log.vs
    && ((s'.value[m] == s.value[m] && s'.log.ps[m] == s.log.ps[m] && s'.log.vs[m] == s.log.vs[m])
        || (s'.value[m] == s.value[m] + 1 && s'.log.ps[m] == s.log.ps[m] && s'.log.vs[m] == s.log.vs[m] + 1)
        || (s.value[m] > 0 && s'.value[m] == s.value[m] - 1 && s'.log.ps[m] == s.log.ps[m] + 1 && s'.log.vs[m] == s.log.vs[m]))
  }

  lemma TestAtomic(s: Kernel, n: Sem, was: bool, k: Cont, m: Sem)
    requires Formed(s) && n in s.value && m in s.value
    ensures m in s.log.ps && m in s.log.vs && Atomic(s, TestValue(s, n, was, k), m)
  {
    hide QueueAt;
    Known(s, m);
    Known(s, n);
  }

  lemma GiveAtomic(s: Kernel, n: Sem, m: Sem)
    requires Formed(s) && n in s.value && m in s.value
    requires QueueAt(s, SemQueue(n)) != [] ==> QueueAt(s, SemQueue(n))[0] in s.threads
    ensures m in s.log.ps && m in s.log.vs && Atomic(s, Release1(s, n), m)
  {
    hide QueueAt, Wake;
    WakeKeeps(s, SemQueue(n));
    Known(s, m);
    Known(s, n);
  }

  /** Steps that leave the semaphores and their records alone. */
  ghost predicate SameUnits(s: Kernel, s': Kernel) {
    s'.value == s.value && s'.log.ps == s.log.ps && s'.log.vs == s.log.vs
  }

  lemma ContinueAtomic(s: Kernel, m: Sem)
    requires Formed(s) && Closed(s) && PcKnown(s) && Enabled(s, Continue) && m in s.value
    ensures m in s.log.ps && m in s.log.vs && Atomic(s, DoContinue(s), m)
  {
    hide Formed, Closed, Release1, TestValue, QueueAt, Atomic, After, Dispatch, MakeReady;
    Known(s, m);
    if !Asleep(s) && (Me(s).pc.PTest? || Me(s).pc.PWait?) {
      TestAtomic(s, Me(s).pc.m, Me(s).pc.was, Me(s).pc.k, m);
    } else if !Asleep(s) && Me(s).pc.VBody? {
      QueueHead(s, SemQueue(Me(s).pc.m));
      GiveAtomic(s, Me(s).pc.m, m);
      var s1 := Release1(s, Me(s).pc.m);
      SameAtomic(s, s1, DoContinue(s), m);
    } else {
      ContinueSame(s);
      NothingAtomic(s, DoContinue(s), m);
    }
  }

  lemma ContinueSame(s: Kernel)
    requires s.current in s.threads && Formed(s) && Closed(s) && PcKnown(s) && Enabled(s, Continue)
    requires Asleep(s) || !(Me(s).pc.PTest? || Me(s).pc.PWait? || Me(s).pc.VBody?)
    ensures SameUnits(s, DoContinue(s))
  {
    hide Formed, Closed, Release1, TestValue, QueueAt, After, Dispatch, MakeReady, Goto, Block, SameUnits;
    NextReady(s);
    if Asleep(s) {
      DispatchSame(s);
    } else if Me(s).pc.Tick? || Me(s).pc.YieldBody? || Me(s).pc.YieldBack? {
      TickSame(s);
    } else {
      LockSame(s);
    }
  }

  lemma LockSame(s: Kernel)
    requires s.current in s.threads && Formed(s) && Closed(s) && PcKnown(s) && Enabled(s, Continue) && !Asleep(s)
    requires !(Me(s).pc.PTest? || Me(s).pc.PWait? || Me(s).pc.VBody?)
    requires !(Me(s).pc.Tick? || Me(s).pc.YieldBody? || Me(s).pc.YieldBack?)
    ensures SameUnits(s, DoContinue(s))
  {
    hide Formed, Closed, PcKnown, Enabled, QueueAt, TestValue, Release1, Return, Dispatch, MakeReady, After;
  }

  lemma TickSame(s: Kernel)
    requires s.current in s.threads && Formed(s) && Closed(s) && PcKnown(s) && Enabled(s, Continue) && !Asleep(s)
    requires Me(s).pc.Tick? || Me(s).pc.YieldBody? || Me(s).pc.YieldBack?
    ensures SameUnits(s, DoContinue(s))
  {
    hide Formed, Closed, QueueAt, After, Dispatch;
    NextReady(s);
    if Me(s).pc.YieldBody? && s.ready != [] {
      DispatchSame(MakeReady(Goto(s, YieldBack(Me(s).pc.was, Me(s).pc.k)), s.current));
    }
  }

  lemma DispatchSame(s: Kernel)
    requires s.ready != [] && s.ready[0] in s.threads
    ensures SameUnits(s, Dispatch(s))
  {
  }

  lemma SameAtomic(s: Kernel, s1: Kernel, s2: Kernel, m: Sem)
    requires m in s.value && m in s.log.ps && m in s.log.vs && Atomic(s, s1, m) && SameUnits(s1, s2)
    ensures Atomic(s, s2, m)
  {
  }

  lemma NothingAtomic(s: Kernel, s': Kernel, m: Sem)
    requires m in s.value && m in s.log.ps && m in s.log.vs && SameUnits(s, s')
    ensures Atomic(s, s', m)
  {
  }

  /** P and V are atomic: every step of the kernel is, for each semaphore, nothing, one V, or
      one P that found a unit, whatever else runs between the steps of a call. */
  lemma SemaphoresAtomic(s: Kernel, a: Action, m: Sem)
    requires Formed(s) && Closed(s) && PcKnown(s) && Enabled(s, a) && m in s.value
    ensures m in s.log.ps && m in s.log.vs && Atomic(s, Apply(s, a), m)
  {
    hide Formed, Closed, Release1, DoContinue, QueueAt, Atomic, WakeAll, Wake, Goto, Return, MakeReady;
    Known(s, m);
    match a
    case Continue => ContinueAtomic(s, m);
    case DeviceV(n) =>
      QueueHead(s, SemQueue(Plain(n)));
      GiveAtomic(s, Plain(n), m);
    case _ =>
      OthersSame(s, a);
      NothingAtomic(s, Apply(s, a), m);
  }

  lemma OthersSame(s: Kernel, a: Action)
    requires Formed(s) && Closed(s) && PcKnown(s) && Enabled(s, a) && !a.Continue? && !a.DeviceV?
    ensures SameUnits(s, Apply(s, a))
  {
    hide Formed, Closed, Release1, DoContinue, QueueAt, WakeAll, Wake;
    match a
    case CallSignal(c, _) =>
      QueueHead(s, CondQueue(c));
      WakeKeeps(s, CondQueue(c));
    case CallBroadcast(c, _) =>
      ClosedQueue(s, CondQueue(c));
      WakeAllKeeps(s, CondQueue(c));
    case _ =>
  }

  // ---------------------------------------------------------------- conditions

  ghost predicate OnlyContinue(s: Kernel)
    requires Formed(s)
  {
    forall a :: Enabled(s, a) ==> a == Continue
  }

  /** The thread is in Wait, between giving up the lock and joining the queue. */
  ghost predicate InWait(s: Kernel, pc: Pc)
    requires s.current in s.threads
  {
    Me(s) == Tcb(pc, Running) && !s.level && (pc.CallV? || pc.VBody? || pc.Join?)
  }

  lemma NobodyElse(s: Kernel, pc: Pc)
    requires Formed(s) && InWait(s, pc)
    ensures Enabled(s, Continue) && OnlyContinue(s)
  {
  }

  lemma WaitStep(s: Kernel, pc: Pc, init: map<Sem, nat>)
    requires Inv(s, init) && InWait(s, pc)
    ensures Formed(s) && Closed(s) && PcKnown(s) && Enabled(s, Continue) && OnlyContinue(s) && Inv(DoContinue(s), init)
  {
    hide Inv, OnlyContinue, Closed, PcKnown, Enabled, DoContinue;
    InvReady(s, init);
    NobodyElse(s, pc);
    StepInv(s, Continue, init);
  }

  /** The thread is still in Wait, the lock has no owner, and the condition's queue is as it was. */
  ghost predicate Waits(t: Kernel, me: Tid, pc: Pc, c: Cond, l: Lock, queue: seq<Tid>) {
    && t.current == me && me in t.threads && InWait(t, pc)
    && l in t.owner && t.owner[l].None? && QueueAt(t, CondQueue(c)) == queue
  }

  lemma WaitBegins(s: Kernel, c: Cond, l: Lock)
    requires Formed(s) && Closed(s) && PcKnown(s) && Enabled(s, CallWait(c, l)) && !s.level
    ensures Waits(Apply(s, CallWait(c, l)), s.current, CallV(l, ToSleep(c, l, false)), c, l, QueueAt(s, CondQueue(c)))
  {
    hide Formed, Closed;
  }

  lemma WaitCallsV(s: Kernel, me: Tid, c: Cond, l: Lock, queue: seq<Tid>)
    requires Formed(s) && Closed(s) && PcKnown(s) && Enabled(s, Continue)
    requires Waits(s, me, CallV(l, ToSleep(c, l, false)), c, l, queue)
    ensures Waits(DoContinue(s), me, VBody(OfLock(l), false, ToSleep(c, l, false)), c, l, queue)
  {
    hide Formed, Closed, Release1, TestValue, Dispatch;
  }

  lemma WaitReleases(s: Kernel, me: Tid, c: Cond, l: Lock, queue: seq<Tid>)
    requires Formed(s) && Closed(s) && PcKnown(s) && Enabled(s, Continue)
    requires Waits(s, me, VBody(OfLock(l), false, ToSleep(c, l, false)), c, l, queue)
    ensures var t := DoContinue(s);
            Waits(t, me, Join(c, l, false), c, l, queue) && l in t.log.holder && t.log.holder[l].None?
  {
    hide Formed, Closed, TestValue, Dispatch;
    LockKnown(s, l);
    Known(s, OfLock(l));
    QueueHead(s, SemQueue(OfLock(l)));
  }

  lemma WaitJoins(s: Kernel, me: Tid, c: Cond, l: Lock, queue: seq<Tid>, init: map<Sem, nat>)
    requires Formed(s) && Closed(s) && PcKnown(s) && Enabled(s, Continue) && Inv(DoContinue(s), init)
    requires Waits(s, me, Join(c, l, false), c, l, queue) && l in s.log.holder && s.log.holder[l].None?
    ensures var t := DoContinue(s);
            && t.current == me && me in t.threads && t.threads[me] == Tcb(CondWait(c, l), Blocked)
            && QueueAt(t, CondQueue(c)) == queue + [me]
            && l in t.owner && t.owner[l].None? && OfLock(l) in t.value && t.value[OfLock(l)] == 1
  {
    hide Formed, Closed, TestValue, Dispatch, Inv, Release1, MakeReady;
    FreeLock(DoContinue(s), l, init);
  }

  lemma FreeLock(s: Kernel, l: Lock, init: map<Sem, nat>)
    requires Inv(s, init) && l in s.owner
    ensures OfLock(l) in s.value && l in s.log.holder && (s.log.holder[l].None? ==> s.value[OfLock(l)] == 1)
  {
    assert Held(s, l);
  }

  /** With interrupts off, Wait releases the lock and sleeps as one step: nothing else can run
      before the thread is on the condition's queue, and nobody has been put there meanwhile. */
  lemma WaitIsAtomic(s: Kernel, c: Cond, l: Lock, init: map<Sem, nat>)
    requires Inv(s, init) && Enabled(s, CallWait(c, l)) && !s.level
    ensures Closed(s) && PcKnown(s)
    ensures var s1 := Apply(s, CallWait(c, l));
            && Formed(s1) && Closed(s1) && PcKnown(s1) && Enabled(s1, Continue) && OnlyContinue(s1)
            && var s2 := DoContinue(s1);
               && Formed(s2) && Closed(s2) && PcKnown(s2) && Enabled(s2, Continue) && OnlyContinue(s2)
               && var s3 := DoContinue(s2);
                  && Formed(s3) && Closed(s3) && PcKnown(s3) && Enabled(s3, Continue) && OnlyContinue(s3)
                  && var s4 := DoContinue(s3);
                     && s4.current == s.current && s.current in s4.threads && s4.threads[s.current] == Tcb(CondWait(c, l), Blocked)
                     && QueueAt(s4, CondQueue(c)) == QueueAt(s, CondQueue(c)) + [s.current]
                     && l in s4.owner && s4.owner[l].None? && OfLock(l) in s4.value && s4.value[OfLock(l)] == 1
  {
    InvReady(s, init);
    hide Inv, OnlyContinue, Closed, Formed, PcKnown, Enabled, DoContinue, Apply, InWait, QueueAt;
    StepInv(s, CallWait(c, l), init);
    var me, queue := s.current, QueueAt(s, CondQueue(c));
    WaitBegins(s, c, l);
    var s1 := Apply(s, CallWait(c, l));
    WaitStep(s1, CallV(l, ToSleep(c, l, false)), init);
    WaitCallsV(s1, me, c, l, queue);
    var s2 := DoContinue(s1);
    WaitStep(s2, VBody(OfLock(l), false, ToSleep(c, l, false)), init);
    WaitReleases(s2, me, c, l, queue);
    var s3 := DoContinue(s2);
    WaitStep(s3, Join(c, l, false), init);
    WaitJoins(s3, me, c, l, queue, init);
  }

  ghost predicate Stopped(s: Kernel)
    requires Formed(s)
  {
    forall a :: !Enabled(s, a)
  }

  /** A thread that has given up the lock in Wait goes to sleep exactly if it called Wait with
      interrupts off. If they were on, Sleep's assertion fails and the machine has stopped. */
  lemma WaitSleepsIffOff(run: seq<Kernel>, init: map<Sem, nat>, locks: set<Lock>, i: nat, c: Cond, l: Lock, on: bool)
    requires IsRun(run, init, locks) && i < |run| && run[i].current in run[i].threads
    requires Me(run[i]) == Tcb(Join(c, l, on), Running)
    ensures Formed(run[i]) && (Enabled(run[i], Continue) <==> !on) && (Stopped(run[i]) <==> on)
  {
    hide IsRun, Inv, Formed;
    RunInv(run, init, locks, i);
    LevelAtJoin(run[i], init);
    if on { StopsAtJoin(run[i], c, l); } else { assert Enabled(run[i], Continue); }
  }

  lemma LevelAtJoin(s: Kernel, init: map<Sem, nat>)
    requires Inv(s, init)
    ensures Formed(s) && (Me(s).status == Running && Me(s).pc.Join? ==> s.level == Me(s).pc.on)
  {
  }

  /** It does come to that: called with interrupts on, and with no time slice running out
      meanwhile, Wait stops the machine in its own next steps. */
  lemma WaitStops(s: Kernel, c: Cond, l: Lock, init: map<Sem, nat>)
    requires Inv(s, init) && Enabled(s, CallWait(c, l)) && s.level && !s.yieldOnReturn
    ensures Closed(s) && PcKnown(s)
    ensures var s1 := Apply(s, CallWait(c, l));
            && Formed(s1) && Closed(s1) && PcKnown(s1) && Enabled(s1, Continue)
            && var s2 := DoContinue(s1);
               && Formed(s2) && Closed(s2) && PcKnown(s2) && Enabled(s2, Continue)
               && var s3 := DoContinue(s2);
                  && Formed(s3) && Closed(s3) && PcKnown(s3) && Enabled(s3, Continue)
                  && var s4 := DoContinue(s3);
                     Formed(s4) && s4.current == s.current && Stopped(s4)
  {
    InvReady(s, init);
    hide Inv, Closed, Formed, Stopped, DoContinue, Apply, QueueAt;
    StepInv(s, CallWait(c, l), init);
    var me := s.current;
    var s1 := Apply(s, CallWait(c, l));
    StopsAtCall(s, c, l);
    StopStep(s1, me, CallV(l, ToSleep(c, l, true)), init);
    var s2 := DoContinue(s1);
    StopsAtV(s1, me, c, l);
    StopStep(s2, me, VBody(OfLock(l), true, ToSleep(c, l, true)), init);
    var s3 := DoContinue(s2);
    StopsInV(s2, me, c, l);
    StopStep(s3, me, Tick(ToSleep(c, l, true)), init);
    StopsAtTick(s3, me, c, l);
    InvReady(DoContinue(s3), init);
    StopsAtJoin(DoContinue(s3), c, l);
  }

  predicate Heading(s: Kernel, me: Tid, pc: Pc) {
    s.current == me && me in s.threads && s.threads[me] == Tcb(pc, Running) && !s.yieldOnReturn
  }

  lemma StopStep(s: Kernel, me: Tid, pc: Pc, init: map<Sem, nat>)
    requires Inv(s, init) && Heading(s, me, pc) && (pc.CallV? || pc.VBody? || pc.Tick?)
    ensures Formed(s) && Closed(s) && PcKnown(s) && Enabled(s, Continue) && Inv(DoContinue(s), init)
  {
    hide Inv, Closed, DoContinue, Formed;
    InvReady(s, init);
    StepInv(s, Continue, init);
  }

  lemma StopsAtCall(s: Kernel, c: Cond, l: Lock)
    requires Formed(s) && Closed(s) && PcKnown(s) && Enabled(s, CallWait(c, l)) && s.level && !s.yieldOnReturn
    ensures Heading(Apply(s, CallWait(c, l)), s.current, CallV(l, ToSleep(c, l, true))) && Apply(s, CallWait(c, l)).level
  {
    hide Formed, Closed;
  }

  lemma StopsAtV(s: Kernel, me: Tid, c: Cond, l: Lock)
    requires Formed(s) && Closed(s) && PcKnown(s) && Enabled(s, Continue) && s.level
    requires Heading(s, me, CallV(l, ToSleep(c, l, true)))
    ensures Heading(DoContinue(s), me, VBody(OfLock(l), true, ToSleep(c, l, true)))
  {
    hide Formed, Closed;
  }

  lemma StopsInV(s: Kernel, me: Tid, c: Cond, l: Lock)
    requires Formed(s) && Closed(s) && PcKnown(s) && Enabled(s, Continue)
    requires Heading(s, me, VBody(OfLock(l), true, ToSleep(c, l, true)))
    ensures Heading(DoContinue(s), me, Tick(ToSleep(c, l, true)))
  {
    hide Formed, Closed, Wake, QueueAt;
    QueueHead(s, SemQueue(OfLock(l)));
    WakeKeeps(s, SemQueue(OfLock(l)));
    Known(s, OfLock(l));
  }

  lemma StopsAtTick(s: Kernel, me: Tid, c: Cond, l: Lock)
    requires Formed(s) && Closed(s) && PcKnown(s) && Enabled(s, Continue) && Heading(s, me, Tick(ToSleep(c, l, true)))
    ensures Heading(DoContinue(s), me, Join(c, l, true)) && DoContinue(s).level
  {
    hide Formed, Closed;
  }

  lemma StopsAtJoin(s: Kernel, c: Cond, l: Lock)
    requires s.current in s.threads && Formed(s) && Me(s) == Tcb(Join(c, l, true), Running) && s.level
    ensures Stopped(s)
  {
  }
}
