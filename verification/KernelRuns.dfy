/** Every step, and so every run, of the kernel keeps the invariant. */
module KernelRuns {
  import opened Common
  import opened Kernels
  import opened KernelPlaces
  import opened KernelInvariants
  import opened KernelSteps
  import opened KernelOrder

  // ---------------------------------------------------------------- whole steps

  lemma GivePc(s: Kernel, m: Sem, was: bool, k: Cont)
    requires PcOk(s, VBody(m, was, k))
    ensures var pc := if was then Tick(k) else After(k);
            && PartOf(pc).None? && !pc.PWait? && m in s.value
            && PartOf(VBody(m, was, k)) == (if m.OfLock? then Some(m.l) else None)
            && (Avoids(pc).Some? ==> Avoids(pc) == Avoids(VBody(m, was, k)))
  {
  }

  lemma GiveRest(s: Kernel, m: Sem, was: bool, k: Cont, init: map<Sem, nat>)
    requires Formed(s) && Lists(s) && Rest(s, init) && !s.level && Me(s) == Tcb(VBody(m, was, k), Running) && PcOk(s, Me(s).pc)
    requires QueueAt(s, SemQueue(m)) != [] ==> QueueAt(s, SemQueue(m))[0] in s.threads
    ensures var s' := Return(Release1(s, m), was, k);
            Formed(s') && Rest(s', init)
  {
    hide PcOk, PartOf, Avoids, After, Lists, Locks, NoLostWakeup, Counted;
    var pc := if was then Tick(k) else After(k);
    GivePc(s, m, was, k);
    GiveCounted(s, m, init);
    GiveWoken(s, m);
    var s1 := Release1(s, m);
    MoveCounted(s1, pc, init);
    GiveLocks(s, m, pc);
    hide Formed, Release1, QueueAt;
    SameMoveWoken(s1, pc);
  }

  lemma SameMoveWoken(s: Kernel, pc: Pc)
    requires s.current in s.threads && NoLostWakeup(s) && !pc.PWait? && !Me(s).pc.PWait?
    ensures NoLostWakeup(Goto(s, pc))
  {
    forall m
      ensures Woken(Goto(s, pc), m) == Woken(s, m)
    {
      assert forall t :: t in Woken(Goto(s, pc), m) <==> t in Woken(s, m);
    }
  }

  lemma GiveCounted(s: Kernel, m: Sem, init: map<Sem, nat>)
    requires Formed(s) && Counted(s, init) && Fifo(s) && m in s.value
    requires QueueAt(s, SemQueue(m)) != [] ==> QueueAt(s, SemQueue(m))[0] in s.threads
    ensures var s' := Release1(s, m);
            && Formed(s') && Counted(s', init) && Fifo(s')
            && s'.level == s.level && s'.current == s.current && Me(s').pc == Me(s).pc
  {
    hide Wake, QueueAt;
    WakeKeeps(s, SemQueue(m));
    WakeFifo(s, SemQueue(m));
  }

  lemma WakeFifo(s: Kernel, q: Queue)
    requires Fifo(s) && (QueueAt(s, q) != [] ==> QueueAt(s, q)[0] in s.threads)
    ensures Fifo(Wake(s, q))
  {
  }

  lemma MoveCounted(s: Kernel, pc: Pc, init: map<Sem, nat>)
    requires Formed(s) && Counted(s, init) && Fifo(s)
    ensures var s' := Goto(s, pc);
            Formed(s') && Counted(s', init) && Fifo(s') && s'.level == s.level
  {
  }

  lemma DeviceRest(s: Kernel, n: nat, init: map<Sem, nat>)
    requires Formed(s) && Lists(s) && Rest(s, init) && !s.level && Plain(n) in s.value
    requires QueueAt(s, SemQueue(Plain(n))) != [] ==> QueueAt(s, SemQueue(Plain(n)))[0] in s.threads
    ensures var s' := Release1(s, Plain(n));
            Formed(s') && Rest(s', init)
  {
    hide Lists, Locks, NoLostWakeup, Counted;
    GiveCounted(s, Plain(n), init);
    GiveWoken(s, Plain(n));
    DeviceLocks(s, n);
  }

  lemma DispatchRest(s: Kernel, init: map<Sem, nat>)
    requires Formed(s) && Threads(s) && Lists(s) && Rest(s, init) && s.ready != [] && Me(s).status != Running
    ensures s.ready[0] in s.threads
    ensures Formed(Dispatch(s)) && Rest(Dispatch(s), init)
  {
    ReadyHead(s);
    assert !s.level;
    SwitchPlaces(s);
    hide Threads, Lists, Rest;
    SwitchRest(s, init);
    BuryRest(Switch(s), init);
  }

  lemma YieldRest(s: Kernel, was: bool, k: Cont, init: map<Sem, nat>)
    requires Formed(s) && Threads(s) && Lists(s) && Rest(s, init) && !s.level && s.ready != []
    requires Me(s) == Tcb(YieldBody(was, k), Running)
    ensures s.ready[0] in s.threads
    ensures var s' := Dispatch(MakeReady(Goto(s, YieldBack(was, k)), s.current));
            Formed(s') && Rest(s', init)
  {
    ReadyHead(s);
    var s1 := Goto(s, YieldBack(was, k));
    OffRest(s, init);
    hide Threads, Lists, Rest, QueueAt;
    GotoRest(s, YieldBack(was, k), init);
    RequeueRest(s1, s.current, init);
    RequeuePlaces(s, YieldBack(was, k));
    DispatchRest(MakeReady(s1, s.current), init);
  }

  lemma OwnRest(s: Kernel, l: Lock, init: map<Sem, nat>)
    requires Formed(s) && Rest(s, init) && Me(s).pc == SetOwner(l) && l in s.owner
    ensures var s' := Goto(s.(owner := s.owner[l := Some(s.current)]), Client);
            Formed(s') && Rest(s', init)
  {
    hide Locks, NoLostWakeup, Counted;
    OwnerCounted(s, l, Some(s.current), init);
    var s1 := s.(owner := s.owner[l := Some(s.current)]);
    MoveCounted(s1, Client, init);
    SameMoveWoken(s1, Client);
    OwnLocks(s, l);
  }

  lemma OwnerCounted(s: Kernel, l: Lock, o: Option<Tid>, init: map<Sem, nat>)
    requires Formed(s) && Counted(s, init) && Fifo(s) && NoLostWakeup(s) && l in s.owner
    ensures var s' := s.(owner := s.owner[l := o]);
            Formed(s') && Counted(s', init) && Fifo(s') && NoLostWakeup(s')
  {
    assert forall m :: Woken(s.(owner := s.owner[l := o]), m) == Woken(s, m);
  }

  lemma DisownRest(s: Kernel, l: Lock, k: Cont, init: map<Sem, nat>)
    requires Formed(s) && Rest(s, init) && Me(s).pc == Client && l in s.owner && s.owner[l] == Some(s.current)
    ensures var s' := Goto(s.(owner := s.owner[l := None]), CallV(l, k));
            Formed(s') && Rest(s', init)
  {
    hide Locks, NoLostWakeup, Counted;
    OwnerCounted(s, l, None, init);
    var s1 := s.(owner := s.owner[l := None]);
    MoveCounted(s1, CallV(l, k), init);
    SameMoveWoken(s1, CallV(l, k));
    DisownLocks(s, l, k);
  }

  lemma AcquireLocks(s: Kernel, l: Lock, was: bool)
    requires Formed(s) && Locks(s) && Me(s).pc == Client && l in s.owner && s.owner[l] != Some(s.current)
    requires Formed(Goto(s, PTest(OfLock(l), was, ToOwner(l))))
    ensures Locks(Goto(s, PTest(OfLock(l), was, ToOwner(l))))
  {
    var s' := Goto(s, PTest(OfLock(l), was, ToOwner(l)));
    forall j | j in s'.owner
      ensures Held(s', j)
    {
      assert Held(s, j);
      assert forall t: Tid :: Holds(s', j, t) <==> Holds(s, j, t);
    }
  }

  lemma AcquireRest(s: Kernel, l: Lock, was: bool, init: map<Sem, nat>)
    requires Formed(s) && Rest(s, init) && !s.level && Me(s).pc == Client && l in s.owner && s.owner[l] != Some(s.current)
    ensures var s' := Goto(s, PTest(OfLock(l), was, ToOwner(l)));
            Formed(s') && Rest(s', init)
  {
    hide Locks, NoLostWakeup, Counted;
    MoveCounted(s, PTest(OfLock(l), was, ToOwner(l)), init);
    SameMoveWoken(s, PTest(OfLock(l), was, ToOwner(l)));
    AcquireLocks(s, l, was);
  }

  lemma {:induction false} WakeAllRest(s: Kernel, c: Cond, init: map<Sem, nat>)
    requires Formed(s) && Rest(s, init) && Threads(s) && Lists(s) && Me(s).status == Running
    requires forall t :: t in QueueAt(s, CondQueue(c)) ==> t in s.threads
    ensures var s' := WakeAll(s, CondQueue(c));
            Formed(s') && Rest(s', init)
    decreases |QueueAt(s, CondQueue(c))|
  {
    var q := CondQueue(c);
    if QueueAt(s, q) != [] {
      WakePlaces(s, q);
      WakeKeepsRunning(s, q);
      WakeCondRest(s, c, init);
      hide Threads, Lists, Rest, Formed;
      WakeAllRest(Wake(s, q), c, init);
    }
  }

  /** What Fork, Signal and Broadcast end with. */
  lemma BackRest(s: Kernel, was: bool, init: map<Sem, nat>)
    requires Formed(s) && Rest(s, init) && Me(s).pc == Client
    ensures var s' := Return(s.(level := false), was, ToClient);
            Formed(s') && Rest(s', init)
  {
    OffRest(s, init);
    hide Rest;
    GotoRest(s.(level := false), if was then Tick(ToClient) else Client, init);
  }

  lemma ForkRest(s: Kernel, t: Tid, init: map<Sem, nat>)
    requires Formed(s) && Rest(s, init) && Me(s) == Tcb(Client, Running)
    requires t in s.threads && s.threads[t] == Tcb(Unborn, JustCreated)
    ensures var s' := Return(MakeReady(s.(level := false, threads := s.threads[t := Tcb(Start, Ready)]), t), s.level, ToClient);
            Formed(s') && Rest(s', init)
  {
    OffRest(s, init);
    hide Rest;
    var off := s.(level := false);
    PutRest(off, t, Tcb(Start, Ready), s.doomed, init);
    var s1 := off.(threads := s.threads[t := Tcb(Start, Ready)], doomed := s.doomed);
    RequeueRest(s1, t, init);
    BackRest(MakeReady(s1, t), s.level, init);
  }

  // ---------------------------------------------------------------- every step

  /** The thread goes on where it would have, from the middle of Yield or of a tick. */
  lemma ReturnRest(s: Kernel, was: bool, k: Cont, init: map<Sem, nat>)
    requires Formed(s) && Rest(s, init) && !s.level
    requires Me(s).pc.YieldBody? || Me(s).pc.YieldBack?
    requires Me(s).pc.k == k
    ensures var s' := Return(s, was, k);
            Formed(s') && Rest(s', init)
  {
    OffRest(s, init);
    hide Rest;
    MoveFormed(s, if was then Tick(k) else After(k));
    GotoRest(s, if was then Tick(k) else After(k), init);
  }

  lemma MoveFormed(s: Kernel, pc: Pc)
    requires Formed(s)
    ensures Formed(Goto(s, pc))
  {
  }

  lemma TickOverRest(s: Kernel, k: Cont, init: map<Sem, nat>)
    requires Formed(s) && Rest(s, init) && Me(s).pc == Tick(k)
    ensures var s' := Goto(s.(level := true), After(k));
            Formed(s') && Rest(s', init)
  {
    OffRest(s, init);
    hide Rest;
    MoveFormed(s.(level := true), After(k));
    GotoRest(s.(level := true), After(k), init);
  }

  lemma TickYieldRest(s: Kernel, k: Cont, init: map<Sem, nat>)
    requires Formed(s) && Rest(s, init) && Me(s).pc == Tick(k)
    ensures var s' := Goto(s.(yieldOnReturn := false), YieldBody(true, k));
            Formed(s') && Rest(s', init)
  {
    assert !s.level;
    FlagRest(s, false, init);
    var s1 := s.(yieldOnReturn := false);
    assert s1.(level := false) == s1;
    hide Rest;
    MoveFormed(s1, YieldBody(true, k));
    GotoRest(s1, YieldBody(true, k), init);
  }

  lemma StartRest(s: Kernel, init: map<Sem, nat>)
    requires Formed(s) && Rest(s, init) && Me(s).pc == Start
    ensures var s' := Goto(s, Tick(ToClient));
            Formed(s') && Rest(s', init)
  {
    assert !s.level;
    assert s.(level := false) == s;
    hide Rest;
    MoveFormed(s, Tick(ToClient));
    GotoRest(s, Tick(ToClient), init);
  }

  lemma MayBe(s: Kernel, init: map<Sem, nat>)
    requires Formed(s) && Rest(s, init)
    ensures s.current in s.threads && (s.level ==> MayBeOn(Me(s)))
  {
  }

  lemma TickRest(s: Kernel, init: map<Sem, nat>)
    requires Formed(s) && Threads(s) && Lists(s) && Rest(s, init) && Closed(s) && PcKnown(s) && Enabled(s, Continue)
    requires !Asleep(s) && PcOk(s, Me(s).pc)
    requires Me(s).pc.Start? || Me(s).pc.Tick? || Me(s).pc.YieldBody? || Me(s).pc.YieldBack?
    ensures var s' := DoContinue(s);
            Formed(s') && Rest(s', init)
  {
    hide Closed, Threads, Lists, Rest, Formed, Goto, Dispatch, MakeReady, After;
    MayBe(s, init);
    match Me(s).pc
    case Start => StartRest(s, init);
    case Tick(k) => if s.yieldOnReturn { TickYieldRest(s, k, init); } else { TickOverRest(s, k, init); }
    case YieldBody(was, k) => if s.ready == [] { ReturnRest(s, was, k, init); } else { YieldRest(s, was, k, init); }
    case YieldBack(was, k) => ReturnRest(s, was, k, init);
  }

  lemma CallVRest(s: Kernel, l: Lock, k: Cont, init: map<Sem, nat>)
    requires Formed(s) && Rest(s, init) && Me(s).pc == CallV(l, k)
    ensures var s' := Goto(s.(level := false), VBody(OfLock(l), s.level, k));
            Formed(s') && Rest(s', init)
  {
    OffRest(s, init);
    var s1 := s.(level := false);
    hide Rest;
    MoveFormed(s1, VBody(OfLock(l), s.level, k));
    GotoRest(s1, VBody(OfLock(l), s.level, k), init);
  }

  lemma AgainRest(s: Kernel, c: Cond, l: Lock, init: map<Sem, nat>)
    requires Formed(s) && Rest(s, init) && Me(s).pc == CondWait(c, l)
    ensures var s' := Goto(s, PTest(OfLock(l), s.level, ToOwner(l)));
            Formed(s') && Rest(s', init)
  {
    assert !s.level;
    assert s.(level := false) == s;
    hide Rest;
    MoveFormed(s, PTest(OfLock(l), s.level, ToOwner(l)));
    GotoRest(s, PTest(OfLock(l), s.level, ToOwner(l)), init);
  }

  lemma LockRest(s: Kernel, init: map<Sem, nat>)
    requires Formed(s) && Rest(s, init) && Closed(s) && PcKnown(s) && Enabled(s, Continue)
    requires !Asleep(s) && PcOk(s, Me(s).pc)
    requires Me(s).pc.SetOwner? || Me(s).pc.CallV? || Me(s).pc.Join? || Me(s).pc.CondWait?
    ensures var s' := DoContinue(s);
            Formed(s') && Rest(s', init)
  {
    hide Closed, Rest, Formed, Goto, Block;
    MayBe(s, init);
    match Me(s).pc
    case SetOwner(l) => OwnRest(s, l, init);
    case CallV(l, k) => CallVRest(s, l, k, init);
    case Join(c, l, _) => BlockRest(s, CondQueue(c), CondWait(c, l), init);
    case CondWait(c, l) => AgainRest(s, c, l, init);
  }

  lemma ContinueRest(s: Kernel, init: map<Sem, nat>)
    requires Formed(s) && Threads(s) && Lists(s) && Rest(s, init) && Closed(s) && PcKnown(s) && Enabled(s, Continue)
    requires PcOk(s, Me(s).pc)
    ensures var s' := DoContinue(s);
            Formed(s') && Rest(s', init)
  {
    hide Closed, Threads, Lists, Rest, Formed, Goto, Dispatch, TestValue;
    MayBe(s, init);
    if Asleep(s) {
      DispatchRest(s, init);
    } else {
      match Me(s).pc
      case PTest(m, was, k) => TestRest(s, m, was, k, init);
      case PWait(m, was, k) => TestRest(s, m, was, k, init);
      case VBody(m, was, k) =>
        QueueHead(s, SemQueue(m));
        GiveRest(s, m, was, k, init);
      case Start => TickRest(s, init);
      case Tick(_) => TickRest(s, init);
      case YieldBody(_, _) => TickRest(s, init);
      case YieldBack(_, _) => TickRest(s, init);
      case SetOwner(_) => LockRest(s, init);
      case CallV(_, _) => LockRest(s, init);
      case Join(_, _, _) => LockRest(s, init);
      case CondWait(_, _) => LockRest(s, init);
      case _ =>
    }
  }

  /** A call by the client that only moves it into the kernel, with interrupts off. */
  lemma EnterRest(s: Kernel, pc: Pc, init: map<Sem, nat>)
    requires Formed(s) && Rest(s, init) && Me(s).pc == Client && PartOf(pc).None? && Avoids(pc).None? && !pc.PWait?
    ensures var s' := Goto(s.(level := false), pc);
            Formed(s') && Rest(s', init)
  {
    OffRest(s, init);
    hide Rest, PartOf, Avoids;
    MoveFormed(s.(level := false), pc);
    assert PartOf(Client).None?;
    GotoRest(s.(level := false), pc, init);
  }

  lemma LevelRest(s: Kernel, on: bool, init: map<Sem, nat>)
    requires Formed(s) && Rest(s, init) && Me(s) == Tcb(Client, Running)
    ensures var s' := if on && !s.level then Goto(s, Tick(ToClient)) else s.(level := on);
            Formed(s') && Rest(s', init)
  {
    hide Rest;
    if on {
      if s.level { OnRest(s, init); } else { assert s == s.(level := false); EnterRest(s, Tick(ToClient), init); }
    } else {
      OffRest(s, init);
    }
  }

  lemma FinishRest(s: Kernel, init: map<Sem, nat>)
    requires Formed(s) && Rest(s, init) && Me(s) == Tcb(Client, Running)
    ensures var s' := s.(level := false, doomed := Some(s.current), threads := s.threads[s.current := Tcb(Finished, Blocked)]);
            Formed(s') && Rest(s', init)
  {
    OffRest(s, init);
    hide Rest;
    PutRest(s.(level := false), s.current, Tcb(Finished, Blocked), Some(s.current), init);
  }

  lemma SignalRest(s: Kernel, c: Cond, init: map<Sem, nat>)
    requires Formed(s) && Threads(s) && Lists(s) && Rest(s, init) && Me(s) == Tcb(Client, Running)
    ensures QueueAt(s, CondQueue(c)) != [] ==> QueueAt(s, CondQueue(c))[0] in s.threads
    ensures var s' := Return(Wake(s, CondQueue(c)).(level := false), s.level, ToClient);
            Formed(s') && Rest(s', init)
  {
    WakeCondRest(s, c, init);
    WakeKeepsRunning(s, CondQueue(c));
    hide Threads, Lists, Rest, Wake;
    BackRest(Wake(s, CondQueue(c)), s.level, init);
  }

  lemma BroadcastRest(s: Kernel, c: Cond, init: map<Sem, nat>)
    requires Formed(s) && Threads(s) && Lists(s) && Rest(s, init) && Me(s) == Tcb(Client, Running)
    requires forall t :: t in QueueAt(s, CondQueue(c)) ==> t in s.threads
    ensures var s' := Return(WakeAll(s, CondQueue(c)).(level := false), s.level, ToClient);
            Formed(s') && Rest(s', init)
  {
    WakeAllRest(s, c, init);
    WakeAllKeepsRunning(s, CondQueue(c));
    hide Threads, Lists, Rest, WakeAll;
    BackRest(WakeAll(s, CondQueue(c)), s.level, init);
  }

  /** Steps that touch other threads or their lists. */
  lemma OthersRest(s: Kernel, a: Action, init: map<Sem, nat>)
    requires Formed(s) && Threads(s) && Lists(s) && Rest(s, init) && Closed(s) && PcKnown(s) && Enabled(s, a)
    requires a.CallNew? || a.CallFork? || a.CallFinish? || a.CallSignal? || a.CallBroadcast?
    ensures var s' := Apply(s, a);
            Formed(s') && Rest(s', init)
  {
    hide Threads, Lists, Rest, Formed, Return, Wake, WakeAll, MakeReady, Closed;
    MayBe(s, init);
    match a
    case CallNew(t) => PutRest(s, t, Tcb(Unborn, JustCreated), s.doomed, init);
    case CallFork(t) => ForkRest(s, t, init);
    case CallFinish => FinishRest(s, init);
    case CallSignal(c, l) => SignalRest(s, c, init);
    case CallBroadcast(c, l) =>
      ClosedQueue(s, CondQueue(c));
      BroadcastRest(s, c, init);
  }

  lemma EntersRest(s: Kernel, a: Action, init: map<Sem, nat>)
    requires Formed(s) && Rest(s, init) && Closed(s) && PcKnown(s) && Enabled(s, a)
    requires a.UserInstruction? || a.CallP? || a.CallVPlain? || a.CallYield?
    ensures var s' := Apply(s, a);
            Formed(s') && Rest(s', init)
  {
    hide Closed, Rest, Formed, Goto;
    match a
    case UserInstruction => EnterRest(s, Tick(ToClient), init);
    case CallP(n) => EnterRest(s, PTest(Plain(n), s.level, ToClient), init);
    case CallVPlain(n) => EnterRest(s, VBody(Plain(n), s.level, ToClient), init);
    case CallYield => EnterRest(s, YieldBody(s.level, ToClient), init);
  }

  lemma StepRest(s: Kernel, a: Action, init: map<Sem, nat>)
    requires Formed(s) && Threads(s) && Lists(s) && Rest(s, init) && Closed(s) && PcKnown(s) && Enabled(s, a)
    requires PcOk(s, Me(s).pc)
    ensures var s' := Apply(s, a);
            Formed(s') && Rest(s', init)
  {
    hide Closed, Threads, Lists, Rest, Formed, Goto, Release1, DoContinue;
    MayBe(s, init);
    OffRest(s, init);
    match a
    case UserInstruction => EntersRest(s, a, init);
    case CallSetLevel(on) => LevelRest(s, on, init);
    case CallP(_) => EntersRest(s, a, init);
    case CallVPlain(_) => EntersRest(s, a, init);
    case CallYield => EntersRest(s, a, init);
    case CallAcquire(l) => AcquireRest(s.(level := false), l, s.level, init);
    case CallRelease(l) => DisownRest(s, l, ToClient, init);
    case CallWait(c, l) => DisownRest(s, l, ToSleep(c, l, s.level), init);
    case Continue => ContinueRest(s, init);
    case DeviceV(n) =>
      QueueHead(s, SemQueue(Plain(n)));
      DeviceRest(s, n, init);
    case DeviceYield => FlagRest(s, true, init);
    case _ => OthersRest(s, a, init);
  }

  // ---------------------------------------------------------------- the level in Wait

  /** Where a thread is when it gets the processor, it is not on its way to sleep in Wait. */
  lemma DispatchWait(s: Kernel)
    requires Threads(s) && Lists(s) && s.ready != [] && Me(s).status != Running
    ensures s.ready[0] in s.threads && Dispatch(s).current in Dispatch(s).threads && WaitLevel(Dispatch(s))
  {
    ReadyHead(s);
    assert Fits(s.threads[s.ready[0]]);
    hide Lists;
  }

  lemma MoveWait(s: Kernel, s': Kernel)
    requires s'.current in s'.threads && (LevelIn(Me(s').pc).Some? ==> s'.level == LevelIn(Me(s').pc).value)
    ensures WaitLevel(s')
  {
  }

  lemma TestWait(s: Kernel, m: Sem, was: bool, k: Cont)
    requires Formed(s) && m in s.value && !k.ToSleep?
    ensures var s' := TestValue(s, m, was, k);
            s'.current in s'.threads && WaitLevel(s')
  {
    hide Formed, QueueAt;
  }

  lemma YieldWait(s: Kernel, was: bool, k: Cont)
    requires Threads(s) && Lists(s) && s.ready != [] && Me(s) == Tcb(YieldBody(was, k), Running)
    ensures s.ready[0] in s.threads
    ensures var s' := Dispatch(MakeReady(Goto(s, YieldBack(was, k)), s.current));
            s'.current in s'.threads && WaitLevel(s')
  {
    ReadyHead(s);
    hide Lists, Threads, WaitLevel, Dispatch;
    RequeuePlaces(s, YieldBack(was, k));
    DispatchWait(MakeReady(Goto(s, YieldBack(was, k)), s.current));
  }

  lemma GiveWait(s: Kernel, m: Sem, was: bool, k: Cont)
    requires Formed(s) && m in s.value && !s.level && (k.ToSleep? ==> k.on == was)
    requires QueueAt(s, SemQueue(m)) != [] ==> QueueAt(s, SemQueue(m))[0] in s.threads
    ensures var s' := Return(Release1(s, m), was, k);
            s'.current in s'.threads && WaitLevel(s')
  {
    hide Formed, Wake, QueueAt;
    Known(s, m);
    WakeKeeps(s, SemQueue(m));
  }

  lemma TickWait(s: Kernel)
    requires s.current in s.threads && Formed(s) && Threads(s) && Lists(s) && Closed(s) && PcKnown(s) && Level(s)
    requires Enabled(s, Continue) && PcOk(s, Me(s).pc) && !Asleep(s)
    requires Me(s).pc.Tick? || Me(s).pc.YieldBody? || Me(s).pc.YieldBack?
    ensures var s' := DoContinue(s);
            s'.current in s'.threads && WaitLevel(s')
  {
    hide Formed, Threads, Lists, Closed, WaitLevel, Dispatch, MakeReady;
    if Me(s).pc.YieldBody? && s.ready != [] {
      YieldWait(s, Me(s).pc.was, Me(s).pc.k);
    } else {
      MoveWait(s, DoContinue(s));
    }
  }

  lemma LockWait(s: Kernel)
    requires s.current in s.threads && Formed(s) && Closed(s) && PcKnown(s) && Level(s) && Enabled(s, Continue) && !Asleep(s)
    requires Me(s).pc.Start? || Me(s).pc.SetOwner? || Me(s).pc.CallV? || Me(s).pc.Join? || Me(s).pc.CondWait?
    ensures var s' := DoContinue(s);
            s'.current in s'.threads && WaitLevel(s')
  {
    hide Formed, Closed, QueueAt;
  }

  lemma ContinueWait(s: Kernel)
    requires s.current in s.threads && Formed(s) && Threads(s) && Lists(s) && Closed(s) && PcKnown(s) && Level(s)
    requires Enabled(s, Continue) && PcOk(s, Me(s).pc)
    ensures var s' := DoContinue(s);
            s'.current in s'.threads && WaitLevel(s')
  {
    hide Formed, Threads, Lists, Closed, WaitLevel, Dispatch, TestValue, Release1, MakeReady, Goto, Block;
    if Asleep(s) {
      DispatchWait(s);
    } else {
      match Me(s).pc
      case PTest(m, was, k) => TestWait(s, m, was, k);
      case PWait(m, was, k) => TestWait(s, m, was, k);
      case VBody(m, was, k) =>
        QueueHead(s, SemQueue(m));
        GiveWait(s, m, was, k);
      case Tick(_) => TickWait(s);
      case YieldBody(_, _) => TickWait(s);
      case YieldBack(_, _) => TickWait(s);
      case Start => LockWait(s);
      case SetOwner(_) => LockWait(s);
      case CallV(_, _) => LockWait(s);
      case Join(_, _, _) => LockWait(s);
      case CondWait(_, _) => LockWait(s);
      case _ => MoveWait(s, s);
    }
  }

  lemma CallWaits(s: Kernel, a: Action)
    requires s.current in s.threads && Formed(s) && Closed(s) && PcKnown(s) && Enabled(s, a)
    requires !a.Continue? && !a.DeviceV? && !a.DeviceYield? && !a.CallSignal? && !a.CallBroadcast?
    ensures var s' := Apply(s, a);
            s'.current in s'.threads && WaitLevel(s')
  {
    hide Formed, Closed;
  }

  lemma AsleepPc(s: Kernel)
    requires Threads(s) && Asleep(s)
    ensures LevelIn(Me(s).pc).None?
  {
    assert Fits(Me(s));
  }

  lemma DeviceWaits(s: Kernel, n: nat)
    requires s.current in s.threads && Formed(s) && Threads(s) && Closed(s) && Enabled(s, DeviceV(n))
    ensures QueueAt(s, SemQueue(Plain(n))) != [] ==> QueueAt(s, SemQueue(Plain(n)))[0] in s.threads
    ensures var s' := Release1(s, Plain(n));
            s'.current in s'.threads && WaitLevel(s')
  {
    hide Formed, Closed, Threads, Wake, QueueAt;
    if Asleep(s) { AsleepPc(s); }
    QueueHead(s, SemQueue(Plain(n)));
    WakeKeeps(s, SemQueue(Plain(n)));
    Known(s, Plain(n));
  }

  lemma HandlerWaits(s: Kernel, a: Action)
    requires s.current in s.threads && Formed(s) && Threads(s) && Closed(s) && PcKnown(s) && Enabled(s, a)
    requires a.DeviceV? || a.DeviceYield? || a.CallSignal? || a.CallBroadcast?
    ensures var s' := Apply(s, a);
            s'.current in s'.threads && WaitLevel(s')
  {
    hide Formed, Closed, Threads, Wake, WakeAll, QueueAt, Release1;
    match a
    case DeviceV(n) => DeviceWaits(s, n);
    case CallSignal(c, _) =>
      QueueHead(s, CondQueue(c));
      WakeKeeps(s, CondQueue(c));
    case CallBroadcast(c, _) =>
      ClosedQueue(s, CondQueue(c));
      WakeAllKeeps(s, CondQueue(c));
    case DeviceYield =>
  }

  lemma StepWait(s: Kernel, a: Action)
    requires Formed(s) && Threads(s) && Lists(s) && Closed(s) && PcKnown(s) && Level(s) && Enabled(s, a) && PcOk(s, Me(s).pc)
    ensures var s' := Apply(s, a);
            s'.current in s'.threads && WaitLevel(s')
  {
    assert s.current in s.threads;
    hide Formed, Threads, Lists, Closed, WaitLevel, DoContinue, Release1, Wake, WakeAll, Goto, Return, MakeReady;
    if a.Continue? {
      ContinueWait(s);
    } else if a.DeviceV? || a.DeviceYield? || a.CallSignal? || a.CallBroadcast? {
      HandlerWaits(s, a);
    } else {
      CallWaits(s, a);
    }
  }

  /** What `Apply` needs of a state, from the invariant. */
  lemma InvReady(s: Kernel, init: map<Sem, nat>)
    requires Inv(s, init)
    ensures Formed(s) && Closed(s) && PcKnown(s)
  {
    ListsClosed(s);
    assert PcOk(s, Me(s).pc);
  }

  /** Every step keeps the whole invariant. */
  lemma StepInv(s: Kernel, a: Action, init: map<Sem, nat>)
    requires Inv(s, init) && Enabled(s, a)
    ensures Closed(s) && PcKnown(s) && Inv(Apply(s, a), init)
  {
    InvReady(s, init);
    assert PcOk(s, Me(s).pc) && Rest(s, init);
    StepPlaces(s, a);
    StepShape(s, a);
    StepWait(s, a);
    StepRest(s, a, init);
    hide Apply, Threads, Lists, Pcs, Level, WaitLevel, Counted, NoLostWakeup, Locks, Fifo;
  }

  // ---------------------------------------------------------------- every run

  /** A run: each state leads to the next by a step that was enabled. The kernel starts with
      one thread, the semaphores `init`, every lock free. */
  ghost predicate Starts(s: Kernel, init: map<Sem, nat>, locks: set<Lock>) {
    && IsInitial(s, init, locks)
    && (forall l :: OfLock(l) in init <==> l in locks)
    && (forall l :: l in locks ==> init[OfLock(l)] == 1)
  }

  ghost predicate IsRun(run: seq<Kernel>, init: map<Sem, nat>, locks: set<Lock>) {
    && run != [] && Starts(run[0], init, locks)
    && forall i :: 0 <= i < |run| - 1 ==> CanStep(run[i], run[i + 1])
  }

  ghost predicate CanStep(s: Kernel, s': Kernel) {
    Formed(s) && Closed(s) && PcKnown(s) && exists a :: Enabled(s, a) && s' == Apply(s, a)
  }

  /** The kernel can be started with any semaphores and locks. */
  lemma CanStart(init: map<Sem, nat>, locks: set<Lock>) returns (s: Kernel)
    requires (forall l :: OfLock(l) in init <==> l in locks) && (forall l :: l in locks ==> init[OfLock(l)] == 1)
    ensures Starts(s, init, locks)
  {
    var free: map<Lock, Option<Tid>> := Tabulated(locks, l => None);
    var none: map<Sem, nat> := Tabulated(init.Keys, m => 0);
    s := Kernel(map[0 := Tcb(Client, Running)], 0, [], map[], init, free, true, false, None, Log([], [], none, none, free));
  }

  lemma InitialLocks(s: Kernel, init: map<Sem, nat>, locks: set<Lock>)
    requires Starts(s, init, locks) && Formed(s)
    ensures Locks(s)
  {
    forall l | l in s.owner
      ensures Held(s, l)
    {
      assert forall t: Tid :: !Holds(s, l, t);
    }
  }

  lemma InitialInv(s: Kernel, init: map<Sem, nat>, locks: set<Lock>)
    requires Starts(s, init, locks)
    ensures Inv(s, init)
  {
    assert Formed(s);
    InitialLocks(s, init, locks);
    hide Locks;
    assert Lists(s);
  }

  /** The invariant holds in every state of every run. */
  lemma {:induction false} RunInv(run: seq<Kernel>, init: map<Sem, nat>, locks: set<Lock>, i: nat)
    requires IsRun(run, init, locks) && i < |run|
    ensures Inv(run[i], init)
  {
    if i == 0 {
      InitialInv(run[0], init, locks);
    } else {
      RunInv(run, init, locks, i - 1);
      var j := i - 1;
      assert CanStep(run[j], run[j + 1]);
      var a :| Enabled(run[j], a) && run[j + 1] == Apply(run[j], a);
      StepInv(run[j], a, init);
    }
  }
}
