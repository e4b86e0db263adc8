/** What the calls of the kernel come to in every run: who gets the processor, who is woken and in
    what order, and with what interrupt level a call returns. */
module KernelCalls {
  import opened Common
  import opened Kernels
  import opened KernelPlaces
  import opened KernelInvariants
  import opened KernelSteps
  import opened KernelRuns
  import opened KernelEnds

  lemma InvParts(s: Kernel, init: map<Sem, nat>)
    requires Inv(s, init)
    ensures Formed(s) && Closed(s) && PcKnown(s) && Threads(s) && Lists(s)
  {
    InvReady(s, init);
  }

  // ---------------------------------------------------------------- handing over the processor

  /** The first of the threads that were ready runs, and the others keep their order. */
  ghost predicate HandedOver(ready: seq<Tid>, s': Kernel) {
    && ready != [] && s'.current == ready[0] && s'.ready == ready[1..]
    && s'.current in s'.threads && s'.threads[s'.current].status == Running
  }

  lemma DispatchHandsOver(s: Kernel)
    requires Threads(s) && Lists(s) && s.ready != [] && Me(s).status != Running
    ensures s.ready[0] in s.threads && HandedOver(s.ready, Dispatch(s))
    ensures s.ready[0] != s.current && s.doomed != Some(s.current) ==>
              s.current in Dispatch(s).threads && Dispatch(s).threads[s.current] == s.threads[s.current]
  {
    hide Lists;
    DispatchPlaces(s);
  }

  /** A thread that sleeps gives the processor to the first thread that is ready. */
  lemma SleepHandsOver(s: Kernel, init: map<Sem, nat>)
    requires Inv(s, init) && Asleep(s) && s.ready != []
    ensures Closed(s) && PcKnown(s) && Enabled(s, Continue) && HandedOver(s.ready, Apply(s, Continue))
  {
    hide Inv, Formed, Closed, Lists, Threads, Dispatch;
    InvParts(s, init);
    DispatchHandsOver(s);
  }

  lemma OnlyContinues(s: Kernel, a: Action)
    requires Formed(s) && Enabled(s, a) && !Asleep(s) && Me(s).pc.YieldBody?
    ensures a == Continue
  {
  }

  /** Where a thread goes that has given up the processor in Yield: behind all that are ready. */
  ghost predicate GaveWay(ready: seq<Tid>, t: Tid, s': Kernel) {
    && ready != [] && s'.current == ready[0] && s'.ready == ready[1..] + [t]
    && s'.current in s'.threads && s'.threads[s'.current].status == Running
    && t in s'.threads && s'.threads[t].status == Ready && s'.threads[t].pc.YieldBack?
  }

  lemma YieldStep(s: Kernel, init: map<Sem, nat>)
    requires Inv(s, init) && !Asleep(s) && Me(s).pc.YieldBody?
    ensures Closed(s) && PcKnown(s) && Enabled(s, Continue)
    ensures var s' := Apply(s, Continue);
            if s.ready == [] then s'.current == s.current && s'.ready == []
            else GaveWay(s.ready, s.current, s') && s'.threads[s.current].pc == YieldBack(Me(s).pc.was, Me(s).pc.k)
  {
    hide Inv, Formed, Closed, Lists, Threads, Dispatch, MakeReady, GaveWay, After;
    InvParts(s, init);
    if s.ready != [] {
      Requeued(s, YieldBack(Me(s).pc.was, Me(s).pc.k));
    }
  }

  lemma Requeued(s: Kernel, pc: Pc)
    requires Threads(s) && Lists(s) && Me(s).status == Running && pc.YieldBack? && s.ready != [] && !Me(s).pc.Finished?
    ensures var s1 := MakeReady(Goto(s, pc), s.current);
            && s1.ready != [] && s1.ready[0] in s1.threads
            && GaveWay(s.ready, s.current, Dispatch(s1)) && Dispatch(s1).threads[s.current].pc == pc
  {
    hide Lists, Dispatch;
    RequeuePlaces(s, pc);
    NotFirst(s);
    DispatchHandsOver(MakeReady(Goto(s, pc), s.current));
  }

  lemma NotFirst(s: Kernel)
    requires Threads(s) && Lists(s) && Me(s).status == Running
    ensures s.ready != [] ==> s.ready[0] != s.current
  {
    if s.ready != [] { ReadyHead(s); }
  }

  /** In Yield a thread gives up the processor, if another one is ready: the first of those runs
      next, and the thread itself comes last. */
  lemma YieldGivesWay(run: seq<Kernel>, init: map<Sem, nat>, locks: set<Lock>, i: nat)
    requires IsRun(run, init, locks) && i + 1 < |run|
    requires run[i].current in run[i].threads && !Asleep(run[i]) && Me(run[i]).pc.YieldBody?
    ensures if run[i].ready == [] then run[i + 1].current == run[i].current && run[i + 1].ready == []
            else GaveWay(run[i].ready, run[i].current, run[i + 1])
  {
    hide Inv, Formed, Closed, PcKnown, Enabled, Apply, Starts, GaveWay;
    RunInv(run, init, locks, i);
    assert CanStep(run[i], run[i + 1]);
    var a :| Enabled(run[i], a) && run[i + 1] == Apply(run[i], a);
    OnlyContinues(run[i], a);
    YieldStep(run[i], init);
  }

  /** The running thread is in Yield, or in a tick after which it must call Yield. */
  ghost predicate Yielding(s: Kernel, t: Tid) {
    && s.current == t && t in s.threads && s.threads[t].status == Running
    && (s.threads[t].pc.YieldBody? || (s.threads[t].pc.Tick? && s.yieldOnReturn))
  }

  /** A call of Yield comes to that, and so does a timer interrupt. */
  lemma YieldBegins(s: Kernel, a: Action, init: map<Sem, nat>)
    requires Inv(s, init) && Enabled(s, a) && (a.CallYield? || a.DeviceYield?)
    ensures Closed(s) && PcKnown(s) && Yielding(Apply(s, a), s.current) && Apply(s, a).ready == s.ready
  {
    hide Inv, Formed, Closed, Lists;
    InvParts(s, init);
    assert Fits(Me(s));
  }

  lemma YieldingStep(s: Kernel, a: Action, t: Tid, init: map<Sem, nat>)
    requires Inv(s, init) && Enabled(s, a) && Yielding(s, t) && s.ready != []
    ensures Closed(s) && PcKnown(s)
    ensures var s' := Apply(s, a);
            (Yielding(s', t) && s.ready <= s'.ready) || (a == Continue && GaveWay(s.ready, t, s'))
  {
    hide Inv, Formed, Closed, QueueAt, GaveWay, Threads, Lists;
    InvParts(s, init);
    if s.threads[t].pc.YieldBody? {
      OnlyContinues(s, a);
      YieldStep(s, init);
    } else if a.DeviceV? {
      TickGives(s, a.n, t);
    } else {
      assert a == Continue || a == DeviceYield;
    }
  }

  lemma TickGives(s: Kernel, n: nat, t: Tid)
    requires Formed(s) && Closed(s) && PcKnown(s) && Threads(s) && Lists(s)
    requires Enabled(s, DeviceV(n)) && Yielding(s, t) && s.threads[t].pc.Tick?
    ensures Yielding(Apply(s, DeviceV(n)), t) && s.ready <= Apply(s, DeviceV(n)).ready
  {
    hide Formed, Closed, Threads, Lists;
    Release1Places(s, Plain(n));
  }

  /** A time slice ends: from the timer's interrupt on, the thread is on its way into Yield, until
      the one that was first to be ready then has the processor and the thread itself comes last. */
  lemma {:induction false} TimeSliceEnds(run: seq<Kernel>, init: map<Sem, nat>, locks: set<Lock>, i: nat, j: nat, t: Tid)
    requires IsRun(run, init, locks) && i <= j < |run| && Yielding(run[i], t) && run[i].ready != []
    ensures (Yielding(run[j], t) && run[i].ready <= run[j].ready)
            || exists n :: i < n <= j && GaveWayTo(run[n], t, run[i].ready[0])
  {
    hide Inv, Formed, Closed, PcKnown, Enabled, Apply, Starts, Yielding, GaveWay, GaveWayTo;
    if i < j {
      var h := j - 1;
      TimeSliceEnds(run, init, locks, i, h, t);
      if Yielding(run[h], t) && run[i].ready <= run[h].ready {
        RunInv(run, init, locks, h);
        assert CanStep(run[h], run[h + 1]);
        var a :| Enabled(run[h], a) && run[h + 1] == Apply(run[h], a);
        YieldingStep(run[h], a, t, init);
        if !Yielding(run[j], t) || !(run[h].ready <= run[j].ready) {
          Gave(run[h].ready, t, run[j]);
        }
      }
    }
  }

  ghost predicate GaveWayTo(s: Kernel, t: Tid, next: Tid) {
    && s.current == next && next in s.threads && s.threads[next].status == Running
    && s.ready != [] && s.ready[|s.ready| - 1] == t && t in s.threads && s.threads[t].status == Ready
  }

  lemma Gave(ready: seq<Tid>, t: Tid, s: Kernel)
    requires GaveWay(ready, t, s)
    ensures GaveWayTo(s, t, ready[0])
  {
  }

  // ---------------------------------------------------------------- waking

  /** The first thread of the queue, if there is one, is ready, behind those that were; the others
      keep their places, and so do the other queues. */
  ghost predicate WokeFirst(s: Kernel, s': Kernel, q: Queue) {
    && (forall p :: p != q ==> QueueAt(s', p) == QueueAt(s, p))
    && var ts := QueueAt(s, q);
       if ts == [] then QueueAt(s', q) == [] && s'.ready == s.ready
       else && QueueAt(s', q) == ts[1..] && s'.ready == s.ready + [ts[0]]
            && ts[0] in s'.threads && s'.threads[ts[0]].status == Ready
  }

  /** All of them are, in their order. */
  ghost predicate WokeAll(s: Kernel, s': Kernel, q: Queue) {
    && (forall p :: p != q ==> QueueAt(s', p) == QueueAt(s, p))
    && QueueAt(s', q) == [] && s'.ready == s.ready + QueueAt(s, q)
    && forall t :: t in QueueAt(s, q) ==> t in s'.threads && s'.threads[t].status == Ready
  }

  lemma WakesFirst(s: Kernel, q: Queue)
    requires Threads(s) && Lists(s) && Me(s).status == Running
    ensures QueueAt(s, q) != [] ==> QueueAt(s, q)[0] in s.threads && QueueAt(s, q)[0] != s.current
    ensures WokeFirst(s, Wake(s, q), q)
  {
    if QueueAt(s, q) != [] { HeadOf(s, q); }
  }

  lemma {:induction false} WakesAll(s: Kernel, q: Queue)
    requires forall t :: t in QueueAt(s, q) ==> t in s.threads
    ensures WokeAll(s, WakeAll(s, q), q)
    ensures forall t :: t in s.threads && s.threads[t].status == Ready ==>
              t in WakeAll(s, q).threads && WakeAll(s, q).threads[t].status == Ready
    decreases |QueueAt(s, q)|
  {
    var ts := QueueAt(s, q);
    if ts != [] {
      var s1 := Wake(s, q);
      assert QueueAt(s1, q) == ts[1..];
      assert forall p :: p != q ==> QueueAt(s1, p) == QueueAt(s, p);
      WakesAll(s1, q);
      assert s.ready + ts == s.ready + [ts[0]] + ts[1..];
    }
  }

  /** Signal wakes the thread that has waited longest. */
  lemma SignalWakesFirst(s: Kernel, c: Cond, l: Lock, init: map<Sem, nat>)
    requires Inv(s, init) && Enabled(s, CallSignal(c, l))
    ensures Closed(s) && PcKnown(s) && WokeFirst(s, Apply(s, CallSignal(c, l)), CondQueue(c))
  {
    hide Inv, Formed, Closed, Threads, Lists, Wake, QueueAt, WokeFirst, WokeAll;
    InvParts(s, init);
    WakesFirst(s, CondQueue(c));
    WakeKeepsRunning(s, CondQueue(c));
    GoesOn(s, Wake(s, CondQueue(c)), Apply(s, CallSignal(c, l)), CondQueue(c));
  }

  /** The running thread goes on in the code, and nothing else happens. */
  ghost predicate OnlyMoves(s: Kernel, s': Kernel, t: Tid) {
    s'.queues == s.queues && s'.ready == s.ready && forall u :: u in s.threads && u != t ==> u in s'.threads && s'.threads[u] == s.threads[u]
  }

  lemma GoesOn(s: Kernel, s1: Kernel, s': Kernel, q: Queue)
    requires Threads(s) && Lists(s) && Me(s).status == Running && OnlyMoves(s1, s', s.current)
    ensures WokeFirst(s, s1, q) ==> WokeFirst(s, s', q)
    ensures WokeAll(s, s1, q) ==> WokeAll(s, s', q)
  {
    hide Threads, Lists;
    NotWaiting(s, q);
    SameQueues(s1, s');
  }

  lemma SameQueues(s: Kernel, s': Kernel)
    requires s'.queues == s.queues
    ensures forall q :: QueueAt(s', q) == QueueAt(s, q)
  {
  }

  /** Broadcast wakes them all, in the order in which they came. */
  lemma BroadcastWakesAll(s: Kernel, c: Cond, l: Lock, init: map<Sem, nat>)
    requires Inv(s, init) && Enabled(s, CallBroadcast(c, l))
    ensures Closed(s) && PcKnown(s) && WokeAll(s, Apply(s, CallBroadcast(c, l)), CondQueue(c))
  {
    hide Inv, Formed, Closed, Threads, Lists, WakeAll, QueueAt, WokeFirst, WokeAll;
    InvParts(s, init);
    ClosedQueue(s, CondQueue(c));
    WakesAll(s, CondQueue(c));
    WakeAllKeepsRunning(s, CondQueue(c));
    GoesOn(s, WakeAll(s, CondQueue(c)), Apply(s, CallBroadcast(c, l)), CondQueue(c));
  }

  lemma NotWaiting(s: Kernel, q: Queue)
    requires Threads(s) && Lists(s) && Me(s).status == Running
    ensures s.current !in QueueAt(s, q)
  {
    assert s.current in QueueAt(s, q) <==> s.current in multiset(QueueAt(s, q));
  }

  /** The step is the body of V on m, by the running thread or by a handler. */
  predicate IsV(s: Kernel, a: Action, m: Sem)
    requires s.current in s.threads
  {
    (a == Continue && !Asleep(s) && Me(s).pc.VBody? && Me(s).pc.m == m) || (m.Plain? && a == DeviceV(m.n))
  }

  /** V adds a unit and wakes the thread that has slept longest. */
  lemma VWakesFirst(s: Kernel, a: Action, m: Sem, init: map<Sem, nat>)
    requires Inv(s, init) && Enabled(s, a) && IsV(s, a, m)
    ensures Closed(s) && PcKnown(s) && m in s.value && WokeFirst(s, Apply(s, a), SemQueue(m))
    ensures Apply(s, a).value == s.value[m := s.value[m] + 1]
  {
    hide Inv, Formed, Closed, Threads, Lists, Release1, QueueAt, WokeFirst, WokeAll;
    InvParts(s, init);
    GivesFirst(s, m);
    if a == Continue { GoesOn(s, Release1(s, m), Apply(s, a), SemQueue(m)); }
  }

  lemma GivesFirst(s: Kernel, m: Sem)
    requires Formed(s) && Threads(s) && Lists(s) && m in s.value
    ensures QueueAt(s, SemQueue(m)) != [] ==> QueueAt(s, SemQueue(m))[0] in s.threads
    ensures WokeFirst(s, Release1(s, m), SemQueue(m))
    ensures Release1(s, m).value == s.value[m := s.value[m] + 1] && Release1(s, m).current == s.current
  {
    hide Formed, Threads;
    if QueueAt(s, SemQueue(m)) != [] { HeadOf(s, SemQueue(m)); }
  }

  // ---------------------------------------------------------------- P

  /** P takes a unit and is about to return, or there is none and the thread sleeps, last in the
      queue of the semaphore. */
  lemma PTakesOrSleeps(s: Kernel, init: map<Sem, nat>)
    requires Inv(s, init) && !Asleep(s) && (Me(s).pc.PTest? || Me(s).pc.PWait?)
    ensures Closed(s) && PcKnown(s) && Enabled(s, Continue)
    ensures var m, s' := Me(s).pc.m, Apply(s, Continue);
            && s'.current == s.current && s.current in s'.threads && s'.ready == s.ready
            && (forall q :: q != SemQueue(m) ==> QueueAt(s', q) == QueueAt(s, q))
            && if s.value[m] == 0
               then && s'.value == s.value && QueueAt(s', SemQueue(m)) == QueueAt(s, SemQueue(m)) + [s.current]
                    && Me(s').status == Blocked && Me(s').pc.PWait? && Me(s').pc.m == m
               else && s'.value == s.value[m := s.value[m] - 1] && QueueAt(s', SemQueue(m)) == QueueAt(s, SemQueue(m))
                    && Me(s').status == Running && !Me(s').pc.PTest? && !Me(s').pc.PWait?
  {
    hide Inv, Formed, Closed, Threads, Lists;
    InvParts(s, init);
  }

  // ---------------------------------------------------------------- the order of queues

  /** Threads join a queue at its end and leave it, for the ready list, from its front. */
  ghost predicate QueueStep(s: Kernel, s': Kernel, q: Queue) {
    var ts, ts' := QueueAt(s, q), QueueAt(s', q);
    || ts' == ts
    || (ts' == ts + [s.current] && s.current in s'.threads && s'.threads[s.current].status == Blocked)
    || exists n :: 0 < n <= |ts| && ts' == ts[n..] && s'.ready == s.ready + ts[..n]
  }

  lemma FirstIsStep(s: Kernel, s': Kernel, p: Queue, q: Queue)
    requires WokeFirst(s, s', p)
    ensures QueueStep(s, s', q)
  {
    var ts := QueueAt(s, q);
    if ts != [] && p == q {
      assert ts[..1] == [ts[0]];
    }
  }

  lemma AllIsStep(s: Kernel, s': Kernel, p: Queue, q: Queue)
    requires WokeAll(s, s', p)
    ensures QueueStep(s, s', q)
  {
    var ts := QueueAt(s, q);
    if ts != [] && p == q {
      assert ts[..|ts|] == ts && ts[|ts|..] == [];
    }
  }

  lemma JoinQueues(s: Kernel, q: Queue, init: map<Sem, nat>)
    requires Inv(s, init) && Enabled(s, Continue) && !Asleep(s) && Me(s).pc.Join?
    ensures Closed(s) && PcKnown(s) && QueueStep(s, Apply(s, Continue), q)
  {
    hide Inv, Formed, Closed, Threads, Lists;
    InvParts(s, init);
  }

  lemma CallQueues(s: Kernel, a: Action)
    requires Formed(s) && Closed(s) && PcKnown(s)
    requires Enabled(s, a) && !a.DeviceV? && !a.CallSignal? && !a.CallBroadcast? && !a.Continue?
    ensures Apply(s, a).queues == s.queues
  {
    hide Formed, Closed, PcKnown, QueueAt, DoContinue, Release1, Wake, WakeAll, After;
  }

  lemma DispatchQueues(s: Kernel)
    requires s.ready != [] && s.ready[0] in s.threads
    ensures Dispatch(s).queues == s.queues
  {
  }

  lemma ContinueQueues(s: Kernel)
    requires s.current in s.threads && Formed(s) && Closed(s) && PcKnown(s) && Enabled(s, Continue)
    requires !Asleep(s) ==> !(Me(s).pc.PTest? || Me(s).pc.PWait? || Me(s).pc.VBody? || Me(s).pc.Join?)
    ensures Apply(s, Continue).queues == s.queues
  {
    hide Formed, Closed, QueueAt, TestValue, Release1, Dispatch, After, MakeReady, Goto, Return, Block;
    NextReady(s);
    if Asleep(s) {
      DispatchQueues(s);
    } else if Me(s).pc.YieldBody? && s.ready != [] {
      RequeuedQueues(s, YieldBack(Me(s).pc.was, Me(s).pc.k));
    } else {
      GotoQueues(s);
    }
  }

  lemma RequeuedQueues(s: Kernel, pc: Pc)
    requires s.current in s.threads && s.ready != [] && s.ready[0] in s.threads
    ensures Dispatch(MakeReady(Goto(s, pc), s.current)).queues == s.queues
  {
    hide Dispatch;
    DispatchQueues(MakeReady(Goto(s, pc), s.current));
  }

  lemma GotoQueues(s: Kernel)
    requires s.current in s.threads && Formed(s) && Closed(s) && PcKnown(s) && Enabled(s, Continue) && !Asleep(s)
    requires !(Me(s).pc.PTest? || Me(s).pc.PWait? || Me(s).pc.VBody? || Me(s).pc.Join?)
    requires !(Me(s).pc.YieldBody? && s.ready != [])
    ensures DoContinue(s).queues == s.queues
  {
    hide Formed, Closed, Enabled, PcKnown, QueueAt, TestValue, Release1, Dispatch, After, MakeReady, Block;
  }

  lemma StepQueues(s: Kernel, a: Action, q: Queue, init: map<Sem, nat>)
    requires Inv(s, init) && Enabled(s, a)
    ensures Closed(s) && PcKnown(s) && QueueStep(s, Apply(s, a), q)
  {
    hide Inv, Formed, Closed, PcKnown, Threads, Lists, Apply, QueueAt, WokeFirst, WokeAll;
    InvParts(s, init);
    if a.CallSignal? {
      SignalWakesFirst(s, a.c, a.l, init);
      FirstIsStep(s, Apply(s, a), CondQueue(a.c), q);
    } else if a.CallBroadcast? {
      BroadcastWakesAll(s, a.c, a.l, init);
      AllIsStep(s, Apply(s, a), CondQueue(a.c), q);
    } else if a.DeviceV? {
      VWakesFirst(s, a, Plain(a.n), init);
      FirstIsStep(s, Apply(s, a), SemQueue(Plain(a.n)), q);
    } else if a == Continue && !Asleep(s) && Me(s).pc.VBody? {
      VWakesFirst(s, a, Me(s).pc.m, init);
      FirstIsStep(s, Apply(s, a), SemQueue(Me(s).pc.m), q);
    } else if a == Continue && !Asleep(s) && (Me(s).pc.PTest? || Me(s).pc.PWait?) {
      PTakesOrSleeps(s, init);
    } else if a == Continue && !Asleep(s) && Me(s).pc.Join? {
      JoinQueues(s, q, init);
    } else {
      if a == Continue { ContinueQueues(s); } else { CallQueues(s, a); }
      SameQueues(s, Apply(s, a));
    }
  }

  lemma JoinsAtEnd(now: seq<Tid>, joined: seq<Tid>, n: nat, t: Tid)
    requires n <= |now + joined|
    ensures (now + (joined + [t]))[n..] == (now + joined)[n..] + [t]
  {
    assert now + (joined + [t]) == now + joined + [t];
  }

  lemma LeavesFromFront(s: seq<Tid>, n: nat, k: nat)
    requires n + k <= |s|
    ensures s[n + k..] == s[n..][k..]
  {
  }

  lemma Shifted(now: seq<Tid>, joined: seq<Tid>, n: nat, s: Kernel, s': Kernel, q: Queue) returns (joined': seq<Tid>, n': nat)
    requires n <= |now + joined| && QueueAt(s, q) == (now + joined)[n..] && QueueStep(s, s', q)
    ensures n <= n' <= |now + joined'| && joined <= joined' && QueueAt(s', q) == (now + joined')[n'..]
  {
    hide QueueAt;
    joined', n' := joined, n;
    var ts, later := QueueAt(s, q), QueueAt(s', q);
    if later != ts {
      if later == ts + [s.current] {
        joined' := joined + [s.current];
        JoinsAtEnd(now, joined, n, s.current);
      } else {
        var k :| 0 < k <= |ts| && later == ts[k..] && s'.ready == s.ready + ts[..k];
        n' := n + k;
        LeavesFromFront(now + joined, n, k);
      }
    }
  }

  /** Nobody overtakes in a queue of a semaphore or a condition: what it holds later is what it held
      and those that joined it since, in that order, less those that left from the front. */
  lemma {:induction false} NobodyOvertakes(run: seq<Kernel>, init: map<Sem, nat>, locks: set<Lock>, i: nat, j: nat, q: Queue)
    returns (joined: seq<Tid>, left: nat)
    requires IsRun(run, init, locks) && i <= j < |run|
    ensures left <= |QueueAt(run[i], q) + joined| && QueueAt(run[j], q) == (QueueAt(run[i], q) + joined)[left..]
  {
    hide Inv, Formed, Closed, PcKnown, Enabled, Apply, Starts, QueueStep, QueueAt;
    joined, left := [], 0;
    if i < j {
      var h := j - 1;
      joined, left := NobodyOvertakes(run, init, locks, i, h, q);
      RunInv(run, init, locks, h);
      assert CanStep(run[h], run[h + 1]);
      var a :| Enabled(run[h], a) && run[h + 1] == Apply(run[h], a);
      StepQueues(run[h], a, q, init);
      joined, left := Shifted(QueueAt(run[i], q), joined, left, run[h], run[j], q);
    }
  }

  // ---------------------------------------------------------------- interrupt levels

  /** The interrupt level with which a thread will be back in its own code, if ever. */
  ghost function Owed(s: Kernel, t: Tid): Option<bool>
    requires t in s.threads
  {
    match s.threads[t].pc
    case Start => Some(true)
    case Client => Some(s.level)
    case PTest(_, was, _) => Some(was)
    case PWait(_, was, _) => Some(was)
    case VBody(_, was, _) => Some(was)
    case Tick(_) => Some(true)
    case YieldBody(was, _) => Some(was)
    case YieldBack(was, _) => Some(was)
    case SetOwner(_) => Some(s.level)
    case CallV(_, _) => Some(s.level)
    case Join(_, _, on) => Some(on)
    case CondWait(_, _) => Some(false)
    case _ => None
  }

  /** Where a thread may be that is not running: there the level of the moment does not matter. */
  lemma OthersOwed(s: Kernel, s': Kernel, t: Tid)
    requires Threads(s) && t in s.threads && (t != s.current || Asleep(s))
    requires t in s'.threads && s'.threads[t].pc == s.threads[t].pc
    ensures Owed(s', t) == Owed(s, t)
  {
    assert Fits(s.threads[t]);
  }

  lemma ReturnOwed(s: Kernel, was: bool, k: Cont)
    requires !s.level && (k.ToSleep? ==> k.on == was)
    ensures s.current in Return(s, was, k).threads && Owed(Return(s, was, k), s.current) == Some(was)
  {
  }

  /** What the invariant says of the running thread. */
  lemma MyLevel(s: Kernel, init: map<Sem, nat>)
    requires Inv(s, init)
    ensures s.current in s.threads && PcOk(s, Me(s).pc) && Level(s) && WaitLevel(s) && Fits(Me(s))
  {
    assert Threads(s);
  }

  lemma ContinueOwed(s: Kernel, init: map<Sem, nat>)
    requires Inv(s, init) && Enabled(s, Continue) && !Asleep(s)
    ensures Closed(s) && PcKnown(s)
    ensures var s' := Apply(s, Continue);
            s.current in s'.threads && Owed(s', s.current) == Owed(s, s.current)
  {
    hide Inv, Formed, Closed, Threads, Lists, TestValue, Release1, Dispatch, MakeReady, Return, QueueAt, KnownCont, After, Block;
    InvParts(s, init);
    MyLevel(s, init);
    match Me(s).pc
    case PTest(m, was, k) => TestOwed(s, m, was, k);
    case PWait(m, was, k) => TestOwed(s, m, was, k);
    case VBody(m, was, k) =>
      Release1Places(s, m);
      Release1Level(s, m);
      ReturnOwed(Release1(s, m), was, k);
    case YieldBody(was, k) => YieldOwed(s, was, k, init);
    case YieldBack(was, k) => ReturnOwed(s, was, k);
    case Tick(k) => TickOwed(s, k);
    case SetOwner(l) => LocksOwed(s, l, ToClient);
    case CallV(l, k) => LocksOwed(s, l, k);
    case CondWait(_, l) => LocksOwed(s, l, ToClient);
    case Start => LocksOwed(s, 0, ToClient);
    case Join(c, l, _) => JoinOwed(s, c, l);
    case _ =>
  }

  lemma TickOwed(s: Kernel, k: Cont)
    requires k.ToSleep? ==> k.on
    ensures Owed(Goto(s.(yieldOnReturn := false), YieldBody(true, k)), s.current) == Some(true)
    ensures Owed(Goto(s.(level := true), After(k)), s.current) == Some(true)
  {
  }

  lemma LocksOwed(s: Kernel, l: Lock, k: Cont)
    ensures Owed(Goto(s.(owner := s.owner[l := Some(s.current)]), Client), s.current) == Some(s.level)
    ensures Owed(Goto(s.(level := false), VBody(OfLock(l), s.level, k)), s.current) == Some(s.level)
    ensures Owed(Goto(s, PTest(OfLock(l), s.level, ToOwner(l))), s.current) == Some(s.level)
    ensures Owed(Goto(s, Tick(ToClient)), s.current) == Some(true)
  {
  }

  lemma JoinOwed(s: Kernel, c: Cond, l: Lock)
    ensures var s' := Block(s, CondQueue(c), CondWait(c, l));
            s.current in s'.threads && Owed(s', s.current) == Some(false)
  {
  }

  lemma Release1Level(s: Kernel, m: Sem)
    requires Formed(s) && m in s.value
    requires QueueAt(s, SemQueue(m)) != [] ==> QueueAt(s, SemQueue(m))[0] in s.threads
    ensures Release1(s, m).level == s.level
  {
  }

  lemma TestOwed(s: Kernel, m: Sem, was: bool, k: Cont)
    requires Formed(s) && m in s.value && !s.level && !k.ToSleep?
    ensures var s' := TestValue(s, m, was, k);
            s.current in s'.threads && Owed(s', s.current) == Some(was)
  {
    hide Formed, QueueAt;
  }

  lemma YieldOwed(s: Kernel, was: bool, k: Cont, init: map<Sem, nat>)
    requires Inv(s, init) && Enabled(s, Continue) && !Asleep(s) && Me(s).pc == YieldBody(was, k) && (k.ToSleep? ==> k.on == was)
    ensures Closed(s) && PcKnown(s)
    ensures var s' := DoContinue(s);
            s.current in s'.threads && Owed(s', s.current) == Some(was)
  {
    hide Inv, Formed, Closed, Threads, Lists, Dispatch, MakeReady, Return;
    InvParts(s, init);
    YieldStep(s, init);
    MyLevel(s, init);
    if s.ready == [] { ReturnOwed(s, was, k); }
  }

  /** Calls other than SetLevel and Finish leave the thread with the level it had. */
  lemma CallOwed(s: Kernel, a: Action, init: map<Sem, nat>)
    requires Inv(s, init) && Enabled(s, a) && !a.Continue? && !a.DeviceV? && !a.CallFinish? && !a.CallSetLevel?
    requires !a.CallSignal? && !a.CallBroadcast?
    ensures Closed(s) && PcKnown(s)
    ensures var s' := Apply(s, a);
            s.current in s'.threads && Owed(s', s.current) == Owed(s, s.current)
  {
    hide Inv, Formed, Closed, Threads, Lists, QueueAt, Release1, Wake, WakeAll, DoContinue;
    InvParts(s, init);
    MyLevel(s, init);
  }

  /** Signal and Broadcast, once they have woken whom they wake. */
  lemma WakerOwed(s: Kernel, a: Action, init: map<Sem, nat>)
    requires Inv(s, init) && Enabled(s, a) && (a.CallSignal? || a.CallBroadcast?)
    ensures Closed(s) && PcKnown(s)
    ensures var s' := Apply(s, a);
            s.current in s'.threads && Owed(s', s.current) == Owed(s, s.current)
  {
    hide Inv, Formed, Closed, Threads, Lists, QueueAt, Wake, WakeAll, Return;
    InvParts(s, init);
    if a.CallSignal? {
      WakeKeepsRunning(s, CondQueue(a.c));
      ReturnOwed(Wake(s, CondQueue(a.c)).(level := false), s.level, ToClient);
    } else {
      ClosedQueue(s, CondQueue(a.c));
      WakeAllKeepsRunning(s, CondQueue(a.c));
      ReturnOwed(WakeAll(s, CondQueue(a.c)).(level := false), s.level, ToClient);
    }
  }

  lemma DeviceOwed(s: Kernel, n: nat, init: map<Sem, nat>)
    requires Inv(s, init) && Enabled(s, DeviceV(n))
    ensures Closed(s) && PcKnown(s)
    ensures var s' := Apply(s, DeviceV(n));
            s.current in s'.threads && Owed(s', s.current) == Owed(s, s.current)
  {
    hide Inv, Formed, Closed, Threads, Lists, QueueAt, Wake;
    InvParts(s, init);
    QueueHead(s, SemQueue(Plain(n)));
    WakeKeeps(s, SemQueue(Plain(n)));
    Known(s, Plain(n));
  }

  /** A step changes the level that a thread is owed only if that thread calls SetLevel, or ends. */
  lemma StepOwed(s: Kernel, a: Action, t: Tid, init: map<Sem, nat>)
    requires Inv(s, init) && Enabled(s, a) && t in s.threads && Owed(s, t).Some? && !(a.CallSetLevel? && t == s.current)
    ensures Closed(s) && PcKnown(s)
    ensures var s' := Apply(s, a);
            t in s'.threads && (Owed(s', t) == Owed(s, t) || Dead(s'.threads[t].pc))
  {
    hide Inv, Formed, Closed, Lists, Threads, PcKnown, Apply, Dispatch, QueueAt;
    InvParts(s, init);
    EndsKnown(s, a, init);
    if t != s.current || Asleep(s) {
      assert Lives(s, Apply(s, a), t);
      OthersOwed(s, Apply(s, a), t);
    } else if a.CallFinish? {
      assert Finishes(s, Apply(s, a));
    } else if a.Continue? {
      ContinueOwed(s, init);
    } else if a.CallSignal? || a.CallBroadcast? {
      WakerOwed(s, a, init);
    } else if a.DeviceV? {
      DeviceOwed(s, a.n, init);
    } else {
      CallOwed(s, a, init);
    }
  }

  /** SetLevel itself: the thread will have the level it asked for. Enabling interrupts, and every
      instruction of a user program, begins a tick, in which handlers may run. */
  lemma SetLevelSets(s: Kernel, a: Action, init: map<Sem, nat>)
    requires Inv(s, init) && Enabled(s, a) && (a.CallSetLevel? || a.UserInstruction?)
    ensures Closed(s) && PcKnown(s) && s.current in Apply(s, a).threads
    ensures Owed(Apply(s, a), s.current) == Some(a.UserInstruction? || a.on)
    ensures a.UserInstruction? || (a.on && !s.level) ==>
              Formed(Apply(s, a)) && Enabled(Apply(s, a), DeviceYield) && forall n :: Plain(n) in s.value ==> Enabled(Apply(s, a), DeviceV(n))
  {
    hide Inv, Closed, Threads, Lists;
    InvParts(s, init);
    StepInv(s, a, init);
    InvParts(Apply(s, a), init);
  }

  /** The step is a call of SetLevel by the thread. */
  ghost predicate SetsLevel(s: Kernel, s': Kernel, t: Tid) {
    && Formed(s) && Closed(s) && PcKnown(s) && s.current == t
    && exists on :: Enabled(s, CallSetLevel(on)) && s' == Apply(s, CallSetLevel(on))
  }

  lemma {:induction false} StaysOwed(run: seq<Kernel>, init: map<Sem, nat>, locks: set<Lock>, i: nat, j: nat, t: Tid)
    requires IsRun(run, init, locks) && i <= j < |run| && t in run[i].threads && Owed(run[i], t).Some?
    requires forall n :: i <= n < j ==> !SetsLevel(run[n], run[n + 1], t)
    ensures t in run[j].threads && (Owed(run[j], t) == Owed(run[i], t) || Dead(run[j].threads[t].pc))
  {
    hide Inv, Formed, Closed, PcKnown, Enabled, Apply, Starts, Owed;
    if i < j {
      var h := j - 1;
      StaysOwed(run, init, locks, i, h, t);
      RunInv(run, init, locks, h);
      assert CanStep(run[h], run[h + 1]);
      var a :| Enabled(run[h], a) && run[h + 1] == Apply(run[h], a);
      assert !SetsLevel(run[h], run[h + 1], t);
      if Dead(run[h].threads[t].pc) { StepDead(run[h], a, t, init); } else { StepOwed(run[h], a, t, init); }
    }
  }

  /** Calls restore the interrupt level: whatever a thread calls, and whoever runs meanwhile, when it
      is back in its own code interrupts are on exactly if they were, unless it has called SetLevel. */
  lemma LevelRestored(run: seq<Kernel>, init: map<Sem, nat>, locks: set<Lock>, i: nat, j: nat, t: Tid)
    requires IsRun(run, init, locks) && i <= j < |run|
    requires run[i].current == t && t in run[i].threads && run[i].threads[t].pc.Client?
    requires run[j].current == t && t in run[j].threads && run[j].threads[t].pc.Client?
    requires forall n :: i <= n < j ==> !SetsLevel(run[n], run[n + 1], t)
    ensures run[j].level == run[i].level
  {
    hide IsRun, SetsLevel;
    StaysOwed(run, init, locks, i, j, t);
  }

  // ---------------------------------------------------------------- what a call has done when it returns

  /** A step leaves every thread where it is in the code but the running one, those it ends or
      destroys, and the one it forks. */
  lemma OthersStay(s: Kernel, a: Action, t: Tid, init: map<Sem, nat>)
    requires Inv(s, init) && Enabled(s, a) && t in s.threads && (t != s.current || Asleep(s))
    requires !Dead(s.threads[t].pc) && !s.threads[t].pc.Unborn?
    ensures Closed(s) && PcKnown(s) && t in Apply(s, a).threads && Apply(s, a).threads[t].pc == s.threads[t].pc
  {
    hide Inv, Formed, Closed, Lists, Threads, PcKnown, Apply, Dispatch, QueueAt;
    InvParts(s, init);
    EndsKnown(s, a, init);
    assert Lives(s, Apply(s, a), t);
  }

  /** Outside its own code the running thread goes on with it, or a handler runs in a tick. */
  lemma GoesOnOrTicks(s: Kernel, a: Action)
    requires Formed(s) && Enabled(s, a) && !Asleep(s) && !Me(s).pc.Client?
    ensures a == Continue || ((a.DeviceV? || a.DeviceYield?) && Me(s).pc.Tick?)
  {
  }

  lemma HandlerStays(s: Kernel, a: Action, init: map<Sem, nat>)
    requires Inv(s, init) && Enabled(s, a) && (a.DeviceV? || a.DeviceYield?)
    ensures Closed(s) && PcKnown(s) && s.current in Apply(s, a).threads && Apply(s, a).threads[s.current].pc == Me(s).pc
  {
    hide Inv, Formed, Closed, Threads, Lists, QueueAt, Wake;
    InvParts(s, init);
    if a.DeviceV? {
      QueueHead(s, SemQueue(Plain(a.n)));
      WakeKeeps(s, SemQueue(Plain(a.n)));
      Known(s, Plain(a.n));
    }
  }

  ghost predicate Trying(s: Kernel, t: Tid, m: Sem) {
    t in s.threads && (s.threads[t].pc.PTest? || s.threads[t].pc.PWait?) && s.threads[t].pc.m == m
  }

  /** The thread takes a unit of the semaphore. */
  ghost predicate TakesUnit(s: Kernel, s': Kernel, t: Tid, m: Sem) {
    && s.current == t && Trying(s, t, m) && m in s.value && s.value[m] > 0
    && s'.value == s.value[m := s.value[m] - 1]
  }

  lemma StepTrying(s: Kernel, a: Action, t: Tid, m: Sem, init: map<Sem, nat>)
    requires Inv(s, init) && Enabled(s, a) && Trying(s, t, m)
    ensures Closed(s) && PcKnown(s) && (Trying(Apply(s, a), t, m) || TakesUnit(s, Apply(s, a), t, m))
  {
    hide Inv, Formed, Closed, Lists, Threads, Apply, QueueAt;
    InvParts(s, init);
    if t != s.current || Asleep(s) {
      OthersStay(s, a, t, init);
    } else {
      GoesOnOrTicks(s, a);
      PTakesOrSleeps(s, init);
    }
  }

  /** A P that has returned has taken a unit, in a step of its own thread. */
  lemma {:induction false} PReturns(run: seq<Kernel>, init: map<Sem, nat>, locks: set<Lock>, i: nat, j: nat, t: Tid, m: Sem)
    requires IsRun(run, init, locks) && i <= j < |run| && Trying(run[i], t, m)
    ensures Trying(run[j], t, m) || exists n :: i <= n < j && TakesUnit(run[n], run[n + 1], t, m)
  {
    hide Inv, Formed, Closed, PcKnown, Enabled, Apply, Starts, Trying, TakesUnit;
    if i < j {
      var h := j - 1;
      PReturns(run, init, locks, i, h, t, m);
      if Trying(run[h], t, m) {
        RunInv(run, init, locks, h);
        assert CanStep(run[h], run[h + 1]);
        var a :| Enabled(run[h], a) && run[h + 1] == Apply(run[h], a);
        StepTrying(run[h], a, t, m, init);
      }
    }
  }

  /** In V, or in Release on the way to it. */
  ghost predicate Giving(s: Kernel, t: Tid, m: Sem) {
    && t in s.threads
    && ((s.threads[t].pc.VBody? && s.threads[t].pc.m == m) || (s.threads[t].pc.CallV? && OfLock(s.threads[t].pc.l) == m))
  }

  ghost predicate GivesUnit(s: Kernel, s': Kernel, t: Tid, m: Sem) {
    s.current == t && Giving(s, t, m) && m in s.value && s'.value == s.value[m := s.value[m] + 1]
  }

  lemma StepGiving(s: Kernel, a: Action, t: Tid, m: Sem, init: map<Sem, nat>)
    requires Inv(s, init) && Enabled(s, a) && Giving(s, t, m)
    ensures Closed(s) && PcKnown(s) && (Giving(Apply(s, a), t, m) || GivesUnit(s, Apply(s, a), t, m))
  {
    hide Inv, Formed, Closed, Lists, Threads, Apply, QueueAt;
    InvParts(s, init);
    if t != s.current || Asleep(s) {
      OthersStay(s, a, t, init);
    } else {
      GoesOnOrTicks(s, a);
      if Me(s).pc.VBody? { VWakesFirst(s, a, m, init); } else { EntersV(s); }
    }
  }

  lemma EntersV(s: Kernel)
    requires s.current in s.threads && Formed(s) && Closed(s) && PcKnown(s) && Enabled(s, Continue) && !Asleep(s) && Me(s).pc.CallV?
    ensures Giving(Apply(s, Continue), s.current, OfLock(Me(s).pc.l))
  {
    hide Formed, Closed;
  }

  /** A V that has returned has given a unit, and so has a Release. */
  lemma {:induction false} VReturns(run: seq<Kernel>, init: map<Sem, nat>, locks: set<Lock>, i: nat, j: nat, t: Tid, m: Sem)
    requires IsRun(run, init, locks) && i <= j < |run| && Giving(run[i], t, m)
    ensures Giving(run[j], t, m) || exists n :: i <= n < j && GivesUnit(run[n], run[n + 1], t, m)
  {
    hide Inv, Formed, Closed, PcKnown, Enabled, Apply, Starts, Giving, GivesUnit;
    if i < j {
      var h := j - 1;
      VReturns(run, init, locks, i, h, t, m);
      if Giving(run[h], t, m) {
        RunInv(run, init, locks, h);
        assert CanStep(run[h], run[h + 1]);
        var a :| Enabled(run[h], a) && run[h + 1] == Apply(run[h], a);
        StepGiving(run[h], a, t, m, init);
      }
    }
  }

  ghost predicate LockAfter(k: Cont, l: Lock) {
    k == ToOwner(l) || (k.ToSleep? && k.l == l)
  }

  /** In a call of Acquire, or of Wait, with that lock. */
  ghost predicate Acquiring(s: Kernel, t: Tid, l: Lock) {
    && t in s.threads
    && match s.threads[t].pc
       case PTest(m, _, _) => m == OfLock(l)
       case PWait(m, _, _) => m == OfLock(l)
       case VBody(_, _, k) => k.ToSleep? && k.l == l
       case Tick(k) => LockAfter(k, l)
       case YieldBody(_, k) => LockAfter(k, l)
       case YieldBack(_, k) => LockAfter(k, l)
       case SetOwner(x) => x == l
       case CallV(_, k) => k.ToSleep? && k.l == l
       case Join(_, x, _) => x == l
       case CondWait(_, x) => x == l
       case _ => false
  }

  ghost predicate Owning(s: Kernel, t: Tid, l: Lock) {
    t in s.threads && s.threads[t].pc.Client? && l in s.owner && s.owner[l] == Some(t)
  }

  lemma ReturnAcquiring(s: Kernel, was: bool, k: Cont, l: Lock)
    requires LockAfter(k, l)
    ensures Acquiring(Return(s, was, k), s.current, l)
  {
  }

  lemma TestAcquiring(s: Kernel, was: bool, l: Lock)
    requires Formed(s) && OfLock(l) in s.value
    ensures Acquiring(TestValue(s, OfLock(l), was, ToOwner(l)), s.current, l)
  {
    hide Formed, QueueAt;
  }

  lemma YieldAcquiring(s: Kernel, l: Lock, init: map<Sem, nat>)
    requires Inv(s, init) && Enabled(s, Continue) && !Asleep(s) && Me(s).pc.YieldBody? && LockAfter(Me(s).pc.k, l)
    ensures Closed(s) && PcKnown(s) && Acquiring(Apply(s, Continue), s.current, l)
  {
    hide Inv, Formed, Closed, Threads, Lists, Dispatch, MakeReady, Return;
    InvParts(s, init);
    YieldStep(s, init);
    if s.ready == [] { ReturnAcquiring(s, Me(s).pc.was, Me(s).pc.k, l); }
  }

  lemma TickAcquiring(s: Kernel, k: Cont, l: Lock)
    requires LockAfter(k, l)
    ensures Acquiring(Goto(s.(yieldOnReturn := false), YieldBody(true, k)), s.current, l)
    ensures Acquiring(Goto(s.(level := true), After(k)), s.current, l)
  {
  }

  lemma LocksAcquiring(s: Kernel, c: Cond, l: Lock, x: Lock, k: Cont)
    ensures Owning(Goto(s.(owner := s.owner[l := Some(s.current)]), Client), s.current, l)
    ensures k.ToSleep? && k.l == l ==> Acquiring(Goto(s.(level := false), VBody(OfLock(x), s.level, k)), s.current, l)
    ensures Acquiring(Block(s, CondQueue(c), CondWait(c, l)), s.current, l)
    ensures Acquiring(Goto(s, PTest(OfLock(l), s.level, ToOwner(l))), s.current, l)
  {
  }

  lemma ContinueAcquiring(s: Kernel, l: Lock, init: map<Sem, nat>)
    requires Inv(s, init) && Enabled(s, Continue) && !Asleep(s) && Acquiring(s, s.current, l)
    ensures Closed(s) && PcKnown(s) && (Acquiring(Apply(s, Continue), s.current, l) || Owning(Apply(s, Continue), s.current, l))
  {
    hide Inv, Formed, Closed, Threads, Lists, TestValue, Release1, Dispatch, MakeReady, Return, QueueAt, KnownCont, Block, Goto, After;
    InvParts(s, init);
    MyLevel(s, init);
    match Me(s).pc
    case PTest(m, was, k) => TestAcquiring(s, was, l);
    case PWait(m, was, k) => TestAcquiring(s, was, l);
    case VBody(m, was, k) =>
      Release1Places(s, m);
      ReturnAcquiring(Release1(s, m), was, k, l);
    case YieldBody(_, _) => YieldAcquiring(s, l, init);
    case YieldBack(was, k) => ReturnAcquiring(s, was, k, l);
    case Tick(k) => TickAcquiring(s, k, l);
    case SetOwner(_) => LocksAcquiring(s, 0, l, l, ToClient);
    case CallV(x, k) => LocksAcquiring(s, 0, l, x, k);
    case Join(c, _, _) => LocksAcquiring(s, c, l, l, ToClient);
    case CondWait(_, _) => LocksAcquiring(s, 0, l, l, ToClient);
    case _ =>
  }

  lemma StepAcquiring(s: Kernel, a: Action, t: Tid, l: Lock, init: map<Sem, nat>)
    requires Inv(s, init) && Enabled(s, a) && Acquiring(s, t, l)
    ensures Closed(s) && PcKnown(s) && (Acquiring(Apply(s, a), t, l) || Owning(Apply(s, a), t, l))
  {
    hide Inv, Formed, Closed, Lists, Threads, Apply, QueueAt;
    InvParts(s, init);
    if t != s.current || Asleep(s) {
      OthersStay(s, a, t, init);
    } else {
      GoesOnOrTicks(s, a);
      if a == Continue { ContinueAcquiring(s, l, init); } else { HandlerStays(s, a, init); }
    }
  }

  /** The calls that come to this. */
  lemma CallBegins(s: Kernel, a: Action, init: map<Sem, nat>)
    requires Inv(s, init) && Enabled(s, a)
    ensures Closed(s) && PcKnown(s)
    ensures a.CallP? ==> Trying(Apply(s, a), s.current, Plain(a.n))
    ensures a.CallVPlain? ==> Giving(Apply(s, a), s.current, Plain(a.n))
    ensures a.CallAcquire? ==> Trying(Apply(s, a), s.current, OfLock(a.l))
    ensures a.CallRelease? || a.CallWait? ==> Giving(Apply(s, a), s.current, OfLock(a.l))
    ensures a.CallAcquire? || a.CallWait? ==> Acquiring(Apply(s, a), s.current, a.l)
  {
    hide Inv, Formed, Closed, Threads, Lists;
    InvParts(s, init);
  }

  /** A thread that has called Acquire, or Wait, with a lock owns that lock when the call returns,
      whatever the others do meanwhile: the call goes on, or it has come to that. */
  lemma {:induction false} AcquireReturns(run: seq<Kernel>, init: map<Sem, nat>, locks: set<Lock>, i: nat, j: nat, t: Tid, l: Lock)
    requires IsRun(run, init, locks) && i <= j < |run| && Acquiring(run[i], t, l)
    ensures Acquiring(run[j], t, l) || exists n :: i < n <= j && Owning(run[n], t, l)
  {
    hide Inv, Formed, Closed, PcKnown, Enabled, Apply, Starts, Acquiring, Owning;
    if i < j {
      var h := j - 1;
      AcquireReturns(run, init, locks, i, h, t, l);
      if Acquiring(run[h], t, l) {
        RunInv(run, init, locks, h);
        assert CanStep(run[h], run[h + 1]);
        var a :| Enabled(run[h], a) && run[h + 1] == Apply(run[h], a);
        StepAcquiring(run[h], a, t, l, init);
      }
    }
  }
}
