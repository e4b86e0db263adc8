/** Every thread is in exactly one place, and interrupts are off where they must be. */
module KernelPlaces {
  import opened Common
  import opened Kernels

  ghost predicate WaitsOn(pc: Pc, q: Queue) {
    match pc
    case PWait(m, _, _) => q == SemQueue(m)
    case CondWait(c, _) => q == CondQueue(c)
    case _ => false
  }

  ghost predicate IsReady(s: Kernel, t: Tid) {
    t in s.threads && s.threads[t].status == Ready
  }

  ghost predicate IsWaiting(s: Kernel, t: Tid, q: Queue) {
    t in s.threads && s.threads[t].status == Blocked && WaitsOn(s.threads[t].pc, q)
  }

  /** The lists hold exactly the threads whose status says so, each once. */
  ghost predicate Lists(s: Kernel) {
    && (forall t :: multiset(s.ready)[t] == if IsReady(s, t) then 1 else 0)
    && (forall q, t :: multiset(QueueAt(s, q))[t] == if IsWaiting(s, t, q) then 1 else 0)
  }

  /** The positions in the kernel that go with each status. */
  ghost predicate Fits(tcb: Tcb) {
    match tcb.status
    case JustCreated => tcb.pc.Unborn?
    case Destroyed => tcb.pc.Gone?
    case Ready => tcb.pc.Start? || tcb.pc.YieldBack? || tcb.pc.PWait? || tcb.pc.CondWait?
    case Blocked => tcb.pc.PWait? || tcb.pc.CondWait? || tcb.pc.Finished?
    case Running => !(tcb.pc.Unborn? || tcb.pc.Finished? || tcb.pc.Gone?)
  }

  ghost predicate Threads(s: Kernel) {
    && s.current in s.threads
    && (forall t :: t in s.threads ==> Fits(s.threads[t]))
    && (forall t :: t in s.threads && s.threads[t].status == Running ==> t == s.current)
    && (Me(s).status == Running || Me(s).status == Ready || Me(s).status == Blocked)
    && (s.doomed.Some? ==> s.doomed.value in s.threads && s.threads[s.doomed.value].pc == Finished)
  }

  // ---------------------------------------------------------------- pieces of steps

  lemma GotoPlaces(s: Kernel, pc: Pc)
    requires Threads(s) && Lists(s) && Me(s).status == Running && Fits(Tcb(pc, Running))
    ensures Threads(Goto(s, pc)) && Lists(Goto(s, pc))
  {
    var s' := Goto(s, pc);
    assert forall q :: QueueAt(s', q) == QueueAt(s, q);
    assert forall t :: IsReady(s', t) <==> IsReady(s, t);
    assert forall t, q :: IsWaiting(s', t, q) <==> IsWaiting(s, t, q);
  }

  lemma HeadOf(s: Kernel, q: Queue)
    requires Lists(s) && QueueAt(s, q) != []
    ensures IsWaiting(s, QueueAt(s, q)[0], q)
  {
    assert QueueAt(s, q)[0] in multiset(QueueAt(s, q));
  }

  lemma WakePlaces(s: Kernel, q: Queue)
    requires Threads(s) && Lists(s)
    ensures QueueAt(s, q) != [] ==> QueueAt(s, q)[0] in s.threads
    ensures Threads(Wake(s, q)) && Lists(Wake(s, q))
  {
    if QueueAt(s, q) != [] {
      HeadOf(s, q);
      WakeStatus(s, q);
      WakeQueues(s, q);
      WakeThreads(s, q);
    }
  }

  lemma WakeThreads(s: Kernel, q: Queue)
    requires Threads(s) && QueueAt(s, q) != [] && IsWaiting(s, QueueAt(s, q)[0], q)
    ensures Threads(Wake(s, q))
  {
  }

  /** The first of the queue, and it alone, changes from waiting to ready. */
  lemma WakeStatus(s: Kernel, q: Queue)
    requires QueueAt(s, q) != [] && IsWaiting(s, QueueAt(s, q)[0], q)
    ensures var t, s' := QueueAt(s, q)[0], Wake(s, q);
            && (forall u :: IsReady(s', u) <==> IsReady(s, u) || u == t)
            && (forall u, p :: IsWaiting(s', u, p) <==> IsWaiting(s, u, p) && u != t)
            && (forall p :: p != q ==> !IsWaiting(s, t, p))
  {
  }

  lemma WakeQueues(s: Kernel, q: Queue)
    requires Lists(s) && QueueAt(s, q) != [] && IsWaiting(s, QueueAt(s, q)[0], q)
    requires var t, s' := QueueAt(s, q)[0], Wake(s, q);
             && (forall u :: IsReady(s', u) <==> IsReady(s, u) || u == t)
             && (forall u, p :: IsWaiting(s', u, p) <==> IsWaiting(s, u, p) && u != t)
             && (forall p :: p != q ==> !IsWaiting(s, t, p))
    ensures Lists(Wake(s, q))
  {
    var ts := QueueAt(s, q);
    var s' := Wake(s, q);
    assert ts == [ts[0]] + ts[1..];
    assert s'.ready == s.ready + [ts[0]];
    assert forall p :: QueueAt(s', p) == if p == q then ts[1..] else QueueAt(s, p);
    assert !IsReady(s, ts[0]);
    hide IsReady, IsWaiting, Wake, QueueAt;
  }

  lemma BlockPlaces(s: Kernel, q: Queue, pc: Pc)
    requires Threads(s) && Lists(s) && Me(s).status == Running && WaitsOn(pc, q)
    ensures Threads(Block(s, q, pc)) && Lists(Block(s, q, pc))
  {
    var s' := Block(s, q, pc);
    assert forall p :: QueueAt(s', p) == if p == q then QueueAt(s, q) + [s.current] else QueueAt(s, p);
    assert forall t :: IsReady(s', t) <==> IsReady(s, t);
    assert forall t, p :: IsWaiting(s', t, p) <==> IsWaiting(s, t, p) || (t == s.current && p == q);
    assert !IsWaiting(s, s.current, q);
  }

  lemma ReadyHead(s: Kernel)
    requires Lists(s) && s.ready != []
    ensures IsReady(s, s.ready[0])
  {
    assert s.ready[0] in multiset(s.ready);
  }

  lemma SwitchPlaces(s: Kernel)
    requires Threads(s) && Lists(s) && s.ready != [] && Me(s).status != Running
    ensures s.ready[0] in s.threads
    ensures Threads(Switch(s)) && Lists(Switch(s)) && Me(Switch(s)).status == Running
  {
    ReadyHead(s);
    var next, s' := s.ready[0], Switch(s);
    assert s.ready == [next] + s.ready[1..];
    assert forall q :: QueueAt(s', q) == QueueAt(s, q);
    assert forall t :: IsReady(s', t) <==> IsReady(s, t) && t != next;
    assert forall t, q :: IsWaiting(s', t, q) <==> IsWaiting(s, t, q);
  }

  /** The carcass destroyed is not the running thread, nor on any list. */
  lemma BuryPlaces(s: Kernel)
    requires Threads(s) && Lists(s) && Me(s).status == Running
    ensures Threads(Bury(s)) && Lists(Bury(s)) && Me(Bury(s)) == Me(s)
  {
    var s' := Bury(s);
    assert forall q :: QueueAt(s', q) == QueueAt(s, q);
    assert forall t :: IsReady(s', t) <==> IsReady(s, t);
    assert forall t, q :: IsWaiting(s', t, q) <==> IsWaiting(s, t, q);
  }

  lemma DispatchPlaces(s: Kernel)
    requires Threads(s) && Lists(s) && s.ready != [] && Me(s).status != Running
    ensures s.ready[0] in s.threads
    ensures Threads(Dispatch(s)) && Lists(Dispatch(s)) && Me(Dispatch(s)).status == Running
  {
    SwitchPlaces(s);
    BuryPlaces(Switch(s));
  }

  /** Yield: the running thread goes to the end of the ready list. */
  lemma RequeuePlaces(s: Kernel, pc: Pc)
    requires Threads(s) && Lists(s) && Me(s).status == Running && pc.YieldBack?
    ensures var s' := MakeReady(Goto(s, pc), s.current);
            Threads(s') && Lists(s') && Me(s').status != Running && s'.ready == s.ready + [s.current]
  {
    var s' := MakeReady(Goto(s, pc), s.current);
    assert forall q :: QueueAt(s', q) == QueueAt(s, q);
    assert forall t :: IsReady(s', t) <==> IsReady(s, t) || t == s.current;
    assert forall t, q :: IsWaiting(s', t, q) <==> IsWaiting(s, t, q);
    assert !IsReady(s, s.current);
  }

  lemma {:induction false} WakeAllPlaces(s: Kernel, q: Queue)
    requires Threads(s) && Lists(s) && (forall t :: t in QueueAt(s, q) ==> t in s.threads)
    ensures Threads(WakeAll(s, q)) && Lists(WakeAll(s, q))
    decreases |QueueAt(s, q)|
  {
    if QueueAt(s, q) != [] {
      WakePlaces(s, q);
      WakeAllPlaces(Wake(s, q), q);
    }
  }

  /** The other fields do not matter here. */
  lemma SamePlaces(s: Kernel, s': Kernel)
    requires Threads(s) && Lists(s)
    requires s'.threads == s.threads && s'.current == s.current && s'.ready == s.ready
    requires s'.queues == s.queues && s'.doomed == s.doomed
    ensures Threads(s') && Lists(s')
  {
    assert forall q :: QueueAt(s', q) == QueueAt(s, q);
    assert forall t :: IsReady(s', t) <==> IsReady(s, t);
    assert forall t, q :: IsWaiting(s', t, q) <==> IsWaiting(s, t, q);
  }

  lemma ListsClosed(s: Kernel)
    requires Threads(s) && Lists(s)
    ensures Closed(s)
  {
    forall t | t in s.ready
      ensures t in s.threads
    {
      assert t in multiset(s.ready) && IsReady(s, t);
    }
    forall q, t | t in QueueAt(s, q)
      ensures t in s.threads
    {
      assert t in multiset(QueueAt(s, q)) && IsWaiting(s, t, q);
    }
  }

  lemma NewPlaces(s: Kernel, t: Tid)
    requires Threads(s) && Lists(s) && t !in s.threads
    ensures var s' := s.(threads := s.threads[t := Tcb(Unborn, JustCreated)]);
            Threads(s') && Lists(s')
  {
    var s' := s.(threads := s.threads[t := Tcb(Unborn, JustCreated)]);
    assert forall q :: QueueAt(s', q) == QueueAt(s, q);
    assert forall u :: IsReady(s', u) <==> IsReady(s, u);
    assert forall u, q :: IsWaiting(s', u, q) <==> IsWaiting(s, u, q);
  }

  lemma ForkPlaces(s: Kernel, t: Tid)
    requires Threads(s) && Lists(s) && t in s.threads && s.threads[t] == Tcb(Unborn, JustCreated)
    ensures var s' := MakeReady(s.(threads := s.threads[t := Tcb(Start, Ready)]), t);
            Threads(s') && Lists(s')
  {
    var s' := MakeReady(s.(threads := s.threads[t := Tcb(Start, Ready)]), t);
    assert forall q :: QueueAt(s', q) == QueueAt(s, q);
    assert forall u :: IsReady(s', u) <==> IsReady(s, u) || u == t;
    assert forall u, q :: IsWaiting(s', u, q) <==> IsWaiting(s, u, q);
    assert !IsReady(s, t);
  }

  lemma FinishPlaces(s: Kernel)
    requires Threads(s) && Lists(s) && Me(s).status == Running
    ensures var s' := s.(doomed := Some(s.current), threads := s.threads[s.current := Tcb(Finished, Blocked)]);
            Threads(s') && Lists(s')
  {
    var s' := s.(doomed := Some(s.current), threads := s.threads[s.current := Tcb(Finished, Blocked)]);
    assert forall q :: QueueAt(s', q) == QueueAt(s, q);
    assert forall t :: IsReady(s', t) <==> IsReady(s, t);
    assert forall t, q :: IsWaiting(s', t, q) <==> IsWaiting(s, t, q);
  }

  // ---------------------------------------------------------------- whole steps

  lemma Release1Places(s: Kernel, m: Sem)
    requires Formed(s) && Threads(s) && Lists(s) && m in s.value
    ensures QueueAt(s, SemQueue(m)) != [] ==> QueueAt(s, SemQueue(m))[0] in s.threads
    ensures Threads(Release1(s, m)) && Lists(Release1(s, m))
    ensures Release1(s, m).current == s.current
    ensures Me(s).status == Running ==> Me(Release1(s, m)) == Me(s)
  {
    hide Lists, Threads;
    WakePlaces(s, SemQueue(m));
    WakeKeepsRunning(s, SemQueue(m));
    SamePlaces(Wake(s, SemQueue(m)), Release1(s, m));
  }

  lemma WakeKeepsRunning(s: Kernel, q: Queue)
    requires Threads(s) && Lists(s)
    ensures QueueAt(s, q) != [] ==> QueueAt(s, q)[0] in s.threads
    ensures Wake(s, q).current == s.current && s.current in Wake(s, q).threads
    ensures Me(s).status == Running ==> Me(Wake(s, q)) == Me(s)
  {
    if QueueAt(s, q) != [] {
      HeadOf(s, q);
    }
  }

  lemma {:induction false} WakeAllKeepsRunning(s: Kernel, q: Queue)
    requires Threads(s) && Lists(s) && Me(s).status == Running && (forall t :: t in QueueAt(s, q) ==> t in s.threads)
    ensures WakeAll(s, q).current == s.current && s.current in WakeAll(s, q).threads
    ensures Me(WakeAll(s, q)) == Me(s)
    decreases |QueueAt(s, q)|
  {
    if QueueAt(s, q) != [] {
      WakePlaces(s, q);
      WakeKeepsRunning(s, q);
      WakeAllKeepsRunning(Wake(s, q), q);
    }
  }

  lemma TestValuePlaces(s: Kernel, m: Sem, was: bool, k: Cont)
    requires Formed(s) && Threads(s) && Lists(s) && Me(s).status == Running && m in s.value
    ensures Threads(TestValue(s, m, was, k)) && Lists(TestValue(s, m, was, k))
  {
    hide Lists, Threads;
    if s.value[m] == 0 {
      BlockPlaces(s, SemQueue(m), PWait(m, was, k));
    } else {
      SamePlaces(s, Take1(s, m));
      GotoPlaces(Take1(s, m), if was then Tick(k) else After(k));
    }
  }

  lemma TickPlaces(s: Kernel)
    requires Formed(s) && Threads(s) && Lists(s) && PcKnown(s) && Closed(s) && Enabled(s, Continue) && !Asleep(s)
    requires Me(s).pc.Tick? || Me(s).pc.YieldBody? || Me(s).pc.YieldBack?
    ensures Threads(DoContinue(s)) && Lists(DoContinue(s))
  {
    hide Lists, Threads, Closed, QueueAt, Dispatch;
    match Me(s).pc
    case Tick(k) =>
      if s.yieldOnReturn {
        SamePlaces(s, s.(yieldOnReturn := false));
        GotoPlaces(s.(yieldOnReturn := false), YieldBody(true, k));
      } else {
        SamePlaces(s, s.(level := true));
        GotoPlaces(s.(level := true), After(k));
      }
    case YieldBody(was, k) =>
      if s.ready == [] {
        GotoPlaces(s, if was then Tick(k) else After(k));
      } else {
        RequeuePlaces(s, YieldBack(was, k));
        DispatchPlaces(MakeReady(Goto(s, YieldBack(was, k)), s.current));
      }
    case YieldBack(was, k) => GotoPlaces(s, if was then Tick(k) else After(k));
  }

  lemma ContinuePlaces(s: Kernel)
    requires Formed(s) && Threads(s) && Lists(s) && PcKnown(s) && Closed(s) && Enabled(s, Continue)
    ensures Threads(DoContinue(s)) && Lists(DoContinue(s))
  {
    hide Lists, Threads, Closed, QueueAt, TestValue, Dispatch, Release1;
    if Asleep(s) {
      DispatchPlaces(s);
    } else {
      match Me(s).pc
      case Start => GotoPlaces(s, Tick(ToClient));
      case PTest(m, was, k) => TestValuePlaces(s, m, was, k);
      case PWait(m, was, k) => TestValuePlaces(s, m, was, k);
      case VBody(m, was, k) =>
        Release1Places(s, m);
        GotoPlaces(Release1(s, m), if was then Tick(k) else After(k));
      case Tick(_) => TickPlaces(s);
      case YieldBody(_, _) => TickPlaces(s);
      case YieldBack(_, _) => TickPlaces(s);
      case SetOwner(l) =>
        var s1 := s.(owner := s.owner[l := Some(s.current)]);
        SamePlaces(s, s1);
        GotoPlaces(s1, Client);
      case CallV(l, k) =>
        SamePlaces(s, s.(level := false));
        GotoPlaces(s.(level := false), VBody(OfLock(l), s.level, k));
      case Join(c, l, _) => BlockPlaces(s, CondQueue(c), CondWait(c, l));
      case CondWait(c, l) => GotoPlaces(s, PTest(OfLock(l), s.level, ToOwner(l)));
      case _ =>
    }
  }

  /** Steps that touch other threads or their lists. */
  lemma OthersPlaces(s: Kernel, a: Action)
    requires Formed(s) && Threads(s) && Lists(s) && PcKnown(s) && Closed(s) && Enabled(s, a)
    requires a.CallNew? || a.CallFork? || a.CallFinish? || a.CallSignal? || a.CallBroadcast?
    ensures Threads(Apply(s, a)) && Lists(Apply(s, a))
  {
    hide Lists, Threads, Closed, QueueAt, Wake, WakeAll;
    var off := s.(level := false);
    SamePlaces(s, off);
    match a
    case CallNew(t) => NewPlaces(s, t);
    case CallFork(t) =>
      ForkPlaces(off, t);
      GotoPlaces(MakeReady(off.(threads := s.threads[t := Tcb(Start, Ready)]), t),
                 if s.level then Tick(ToClient) else Client);
    case CallFinish => FinishPlaces(off);
    case CallSignal(c, l) =>
      WakePlaces(s, CondQueue(c));
      WakeKeepsRunning(s, CondQueue(c));
      var s1 := Wake(s, CondQueue(c));
      SamePlaces(s1, s1.(level := false));
      GotoPlaces(s1.(level := false), if s.level then Tick(ToClient) else Client);
    case CallBroadcast(c, l) =>
      ClosedQueue(s, CondQueue(c));
      WakeAllPlaces(s, CondQueue(c));
      WakeAllKeepsRunning(s, CondQueue(c));
      var s1 := WakeAll(s, CondQueue(c));
      SamePlaces(s1, s1.(level := false));
      GotoPlaces(s1.(level := false), if s.level then Tick(ToClient) else Client);
  }

  /** Every step keeps every thread in exactly one place. */
  lemma StepPlaces(s: Kernel, a: Action)
    requires Formed(s) && Threads(s) && Lists(s) && PcKnown(s) && Closed(s) && Enabled(s, a)
    ensures Threads(Apply(s, a)) && Lists(Apply(s, a))
  {
    hide Lists, Threads, Closed, QueueAt, Wake, WakeAll, Release1, DoContinue;
    var off := s.(level := false);
    SamePlaces(s, off);
    match a
    case UserInstruction => GotoPlaces(off, Tick(ToClient));
    case CallSetLevel(on) =>
      if on && !s.level { GotoPlaces(s, Tick(ToClient)); } else { SamePlaces(s, s.(level := on)); }
    case CallP(n) => GotoPlaces(off, PTest(Plain(n), s.level, ToClient));
    case CallVPlain(n) => GotoPlaces(off, VBody(Plain(n), s.level, ToClient));
    case CallAcquire(l) => GotoPlaces(off, PTest(OfLock(l), s.level, ToOwner(l)));
    case CallRelease(l) =>
      SamePlaces(s, s.(owner := s.owner[l := None]));
      GotoPlaces(s.(owner := s.owner[l := None]), CallV(l, ToClient));
    case CallYield => GotoPlaces(off, YieldBody(s.level, ToClient));
    case CallWait(c, l) =>
      SamePlaces(s, s.(owner := s.owner[l := None]));
      GotoPlaces(s.(owner := s.owner[l := None]), CallV(l, ToSleep(c, l, s.level)));
    case Continue => ContinuePlaces(s);
    case DeviceV(n) => Release1Places(s, Plain(n));
    case DeviceYield => SamePlaces(s, s.(yieldOnReturn := true));
    case _ => OthersPlaces(s, a);
  }

  lemma ClosedQueue(s: Kernel, q: Queue)
    requires Closed(s)
    ensures forall t :: t in QueueAt(s, q) ==> t in s.threads
  {
  }
}
