/** Every step of the kernel keeps the invariant. */
module KernelSteps {
  import opened Common
  import opened Kernels
  import opened KernelPlaces
  import opened KernelInvariants

  // ---------------------------------------------------------------- shape and positions

  ghost predicate SameDomains(s: Kernel, s': Kernel) {
    && s'.value.Keys == s.value.Keys && s'.owner.Keys == s.owner.Keys
    && s'.log.ps.Keys == s.log.ps.Keys && s'.log.vs.Keys == s.log.vs.Keys
    && s'.log.holder.Keys == s.log.holder.Keys
  }

  /** Threads are where they were, or at good new positions. */
  lemma KeepShape(s: Kernel, s': Kernel)
    requires Formed(s) && Pcs(s) && SameDomains(s, s') && s'.current in s'.threads
    requires forall t :: t in s'.threads ==>
               (t in s.threads && s'.threads[t].pc == s.threads[t].pc) || PcOk(s, s'.threads[t].pc)
    ensures Formed(s') && Pcs(s')
  {
  }

  /** Levels, flags and the values in the maps do not matter here. */
  lemma QuietShape(s: Kernel, s': Kernel)
    requires Formed(s) && Pcs(s) && SameDomains(s, s') && s'.current == s.current && s'.threads == s.threads
    ensures Formed(s') && Pcs(s') && s.current in s.threads
  {
  }

  lemma GotoShape(s: Kernel, pc: Pc)
    requires Formed(s) && Pcs(s) && PcOk(s, pc)
    ensures Formed(Goto(s, pc)) && Pcs(Goto(s, pc))
  {
    KeepShape(s, Goto(s, pc));
  }

  lemma ReturnOk(s: Kernel, was: bool, k: Cont)
    requires KnownCont(s, k) && (k.ToSleep? && was ==> k.on)
    ensures PcOk(s, if was then Tick(k) else After(k))
  {
  }

  lemma {:induction false} WakeAllKeeps(s: Kernel, q: Queue)
    requires forall t :: t in QueueAt(s, q) ==> t in s.threads
    ensures var s' := WakeAll(s, q);
            && s' == s.(threads := s'.threads, ready := s'.ready, queues := s'.queues, log := s.log.(enqueued := s'.log.enqueued))
            && s'.threads.Keys == s.threads.Keys
            && (forall t :: t in s.threads ==> s'.threads[t].pc == s.threads[t].pc)
    decreases |QueueAt(s, q)|
  {
    if QueueAt(s, q) != [] {
      WakeAllKeeps(Wake(s, q), q);
    }
  }

  lemma TestShape(s: Kernel, m: Sem, was: bool, k: Cont)
    requires Formed(s) && Pcs(s) && PcOk(s, PTest(m, was, k))
    ensures Formed(TestValue(s, m, was, k)) && Pcs(TestValue(s, m, was, k))
  {
    hide Formed, Pcs, PcOk;
    TestOk(s, m, was, k);
    if s.value[m] == 0 { BlockShape(s, SemQueue(m), PWait(m, was, k)); } else { TakeShape(s, m, was, k); }
  }

  lemma BlockShape(s: Kernel, q: Queue, pc: Pc)
    requires Formed(s) && Pcs(s) && PcOk(s, pc)
    ensures Formed(Block(s, q, pc)) && Pcs(Block(s, q, pc))
  {
    hide Formed, Pcs, PcOk, QueueAt;
    KeepShape(s, Block(s, q, pc));
  }

  lemma TakeShape(s: Kernel, m: Sem, was: bool, k: Cont)
    requires Formed(s) && Pcs(s) && m in s.value && s.value[m] > 0 && PcOk(s, if was then Tick(k) else After(k))
    ensures Formed(Return(Take1(s, m), was, k)) && Pcs(Return(Take1(s, m), was, k))
  {
    hide Formed, Pcs, PcOk, After;
    Known(s, m);
    KeepShape(s, Return(Take1(s, m), was, k));
  }

  lemma TestOk(s: Kernel, m: Sem, was: bool, k: Cont)
    requires Formed(s) && PcOk(s, PTest(m, was, k))
    ensures PcOk(s, PWait(m, was, k)) && PcOk(s, if was then Tick(k) else After(k))
    ensures s.current in s.threads && m in s.value && m in s.log.ps && (m.OfLock? ==> m.l in s.log.holder)
  {
  }

  lemma MyPc(s: Kernel)
    requires Formed(s) && Pcs(s)
    ensures s.current in s.threads && PcOk(s, Me(s).pc)
  {
  }

  lemma NextReady(s: Kernel)
    requires Closed(s)
    ensures s.ready != [] ==> s.ready[0] in s.threads
  {
    assert s.ready != [] ==> s.ready[0] in s.ready;
  }

  lemma Known(s: Kernel, m: Sem)
    requires Formed(s) && m in s.value
    ensures s.current in s.threads && m in s.log.ps && m in s.log.vs && (m.OfLock? ==> m.l in s.log.holder)
  {
  }

  /** Waking a thread moves nobody in the code. */
  lemma WakeKeeps(s: Kernel, q: Queue)
    requires QueueAt(s, q) != [] ==> QueueAt(s, q)[0] in s.threads
    ensures var s' := Wake(s, q);
            && s' == s.(threads := s'.threads, ready := s'.ready, queues := s'.queues, log := s.log.(enqueued := s'.log.enqueued))
            && s'.threads.Keys == s.threads.Keys
            && (forall t :: t in s.threads ==> s'.threads[t].pc == s.threads[t].pc)
  {
  }

  lemma Release1Shape(s: Kernel, m: Sem)
    requires Formed(s) && Pcs(s) && m in s.value
    requires QueueAt(s, SemQueue(m)) != [] ==> QueueAt(s, SemQueue(m))[0] in s.threads
    ensures Formed(Release1(s, m)) && Pcs(Release1(s, m)) && SameDomains(s, Release1(s, m))
  {
    Known(s, m);
    WakeKeeps(s, SemQueue(m));
    hide Pcs, Formed, Wake, QueueAt;
    KeepShape(s, Release1(s, m));
  }

  lemma GiveShape(s: Kernel, m: Sem, was: bool, k: Cont)
    requires Formed(s) && Pcs(s) && m in s.value && PcOk(s, if was then Tick(k) else After(k))
    requires QueueAt(s, SemQueue(m)) != [] ==> QueueAt(s, SemQueue(m))[0] in s.threads
    ensures Formed(Return(Release1(s, m), was, k)) && Pcs(Return(Release1(s, m), was, k))
  {
    Release1Shape(s, m);
    var s1 := Release1(s, m);
    Known(s1, m);
    hide Pcs, Formed, Release1;
    assert PcOk(s1, if was then Tick(k) else After(k));
    hide PcOk;
    GotoShape(s1, if was then Tick(k) else After(k));
  }

  lemma BuryShape(s: Kernel)
    requires Formed(s) && Pcs(s)
    ensures Formed(Bury(s)) && Pcs(Bury(s))
  {
    assert s.current in s.threads;
    hide Formed, Pcs;
    KeepShape(s, Bury(s));
  }

  lemma DispatchShape(s: Kernel)
    requires Formed(s) && Pcs(s) && s.ready != [] && s.ready[0] in s.threads
    ensures Formed(Dispatch(s)) && Pcs(Dispatch(s))
  {
    hide Pcs, Formed;
    KeepShape(s, Switch(s));
    BuryShape(Switch(s));
  }

  lemma YieldShape(s: Kernel, was: bool, k: Cont)
    requires Formed(s) && Pcs(s) && s.ready != [] && s.ready[0] in s.threads && PcOk(s, YieldBack(was, k))
    ensures var s' := Dispatch(MakeReady(Goto(s, YieldBack(was, k)), s.current));
            Formed(s') && Pcs(s')
  {
    assert s.current in s.threads;
    hide Pcs, Formed;
    var s1 := MakeReady(Goto(s, YieldBack(was, k)), s.current);
    KeepShape(s, s1);
    DispatchShape(s1);
  }

  lemma TickShape(s: Kernel)
    requires Formed(s) && Closed(s) && Pcs(s) && PcKnown(s) && Enabled(s, Continue) && !Asleep(s)
    requires Me(s).pc.Start? || Me(s).pc.Tick? || Me(s).pc.YieldBody? || Me(s).pc.YieldBack?
    ensures Formed(DoContinue(s)) && Pcs(DoContinue(s))
  {
    hide Formed, Pcs, Closed;
    MyPc(s);
    NextReady(s);
    match Me(s).pc
    case Start => GotoShape(s, Tick(ToClient));
    case Tick(k) =>
      ReturnOk(s, false, k);
      if s.yieldOnReturn {
        QuietShape(s, s.(yieldOnReturn := false));
        GotoShape(s.(yieldOnReturn := false), YieldBody(true, k));
      } else {
        QuietShape(s, s.(level := true));
        GotoShape(s.(level := true), After(k));
      }
    case YieldBody(was, k) =>
      ReturnOk(s, was, k);
      if s.ready == [] { GotoShape(s, if was then Tick(k) else After(k)); } else { YieldShape(s, was, k); }
    case YieldBack(was, k) =>
      ReturnOk(s, was, k);
      GotoShape(s, if was then Tick(k) else After(k));
  }

  lemma LockShape(s: Kernel)
    requires Formed(s) && Closed(s) && Pcs(s) && WaitLevel(s) && PcKnown(s) && Enabled(s, Continue) && !Asleep(s)
    requires Me(s).pc.SetOwner? || Me(s).pc.CallV? || Me(s).pc.Join? || Me(s).pc.CondWait?
    ensures Formed(DoContinue(s)) && Pcs(DoContinue(s))
  {
    hide Formed, Pcs, Closed;
    MyPc(s);
    LockKnown(s, Me(s).pc.l);
    match Me(s).pc
    case SetOwner(l) =>
      var s1 := s.(owner := s.owner[l := Some(s.current)]);
      QuietShape(s, s1);
      GotoShape(s1, Client);
    case CallV(l, k) =>
      QuietShape(s, s.(level := false));
      GotoShape(s.(level := false), VBody(OfLock(l), s.level, k));
    case Join(c, l, _) => KeepShape(s, DoContinue(s));
    case CondWait(c, l) => GotoShape(s, PTest(OfLock(l), s.level, ToOwner(l)));
  }

  lemma ContinueShape(s: Kernel)
    requires Formed(s) && Closed(s) && Pcs(s) && WaitLevel(s) && PcKnown(s) && Enabled(s, Continue)
    ensures Formed(DoContinue(s)) && Pcs(DoContinue(s))
  {
    hide Formed, Pcs, Closed, WaitLevel;
    MyPc(s);
    NextReady(s);
    if Asleep(s) {
      DispatchShape(s);
    } else {
      match Me(s).pc
      case PTest(m, was, k) => TestShape(s, m, was, k);
      case PWait(m, was, k) => TestShape(s, m, was, k);
      case VBody(m, was, k) =>
        ReturnOk(s, was, k);
        QueueHead(s, SemQueue(m));
        GiveShape(s, m, was, k);
      case Start => TickShape(s);
      case Tick(_) => TickShape(s);
      case YieldBody(_, _) => TickShape(s);
      case YieldBack(_, _) => TickShape(s);
      case SetOwner(_) => LockShape(s);
      case CallV(_, _) => LockShape(s);
      case Join(_, _, _) => LockShape(s);
      case CondWait(_, _) => LockShape(s);
      case _ =>
    }
  }

  lemma WakeShape(s: Kernel, q: Queue)
    requires Formed(s) && Pcs(s) && Closed(s)
    ensures QueueAt(s, q) != [] ==> QueueAt(s, q)[0] in s.threads
    ensures Formed(Wake(s, q)) && Pcs(Wake(s, q))
  {
    assert s.current in s.threads;
    QueueHead(s, q);
    WakeKeeps(s, q);
    hide Formed, Pcs, Closed, Wake, QueueAt;
    KeepShape(s, Wake(s, q));
  }

  lemma WakeAllShape(s: Kernel, q: Queue)
    requires Formed(s) && Pcs(s) && Closed(s)
    ensures forall t :: t in QueueAt(s, q) ==> t in s.threads
    ensures Formed(WakeAll(s, q)) && Pcs(WakeAll(s, q))
  {
    assert s.current in s.threads;
    ClosedQueue(s, q);
    WakeAllKeeps(s, q);
    hide Formed, Pcs, Closed, WakeAll, QueueAt;
    KeepShape(s, WakeAll(s, q));
  }

  lemma NewShape(s: Kernel, t: Tid, tcb: Tcb)
    requires Formed(s) && Pcs(s) && PcOk(s, tcb.pc)
    ensures var s' := s.(threads := s.threads[t := tcb]);
            Formed(s') && Pcs(s')
  {
    assert s.current in s.threads;
    hide Formed, Pcs, PcOk;
    KeepShape(s, s.(threads := s.threads[t := tcb]));
  }

  /** Steps that touch other threads or their lists. */
  lemma OthersShape(s: Kernel, a: Action)
    requires Formed(s) && Closed(s) && Pcs(s) && PcKnown(s) && Enabled(s, a)
    requires a.CallNew? || a.CallFork? || a.CallFinish? || a.CallSignal? || a.CallBroadcast?
    ensures Formed(Apply(s, a)) && Pcs(Apply(s, a))
  {
    hide Formed, Pcs, Closed, Wake, WakeAll, QueueAt;
    var off := s.(level := false);
    QuietShape(s, off);
    match a
    case CallNew(t) => NewShape(s, t, Tcb(Unborn, JustCreated));
    case CallFork(t) =>
      NewShape(off, t, Tcb(Start, Ready));
      var s1 := off.(threads := s.threads[t := Tcb(Start, Ready)]);
      QuietShape(s1, MakeReady(s1, t));
      GotoShape(MakeReady(s1, t), if s.level then Tick(ToClient) else Client);
    case CallFinish =>
      NewShape(off, s.current, Tcb(Finished, Blocked));
      QuietShape(off.(threads := s.threads[s.current := Tcb(Finished, Blocked)]), Apply(s, a));
    case CallSignal(c, l) =>
      WakeShape(s, CondQueue(c));
      var s1 := Wake(s, CondQueue(c));
      QuietShape(s1, s1.(level := false));
      GotoShape(s1.(level := false), if s.level then Tick(ToClient) else Client);
    case CallBroadcast(c, l) =>
      WakeAllShape(s, CondQueue(c));
      var s1 := WakeAll(s, CondQueue(c));
      QuietShape(s1, s1.(level := false));
      GotoShape(s1.(level := false), if s.level then Tick(ToClient) else Client);
  }

  /** Every step keeps the state well formed and every thread at a good position. */
  lemma StepShape(s: Kernel, a: Action)
    requires Formed(s) && Closed(s) && Pcs(s) && WaitLevel(s) && PcKnown(s) && Enabled(s, a)
    ensures Formed(Apply(s, a)) && Pcs(Apply(s, a))
  {
    hide Formed, Pcs, Closed, WaitLevel, DoContinue, Release1, QueueAt;
    var off := s.(level := false);
    QuietShape(s, off);
    if a.CallAcquire? || a.CallRelease? || a.CallWait? {
      LockKnown(s, a.l);
      QuietShape(s, s.(owner := s.owner[a.l := None]));
    }
    match a
    case UserInstruction => GotoShape(off, Tick(ToClient));
    case CallSetLevel(on) =>
      if on && !s.level { GotoShape(s, Tick(ToClient)); } else { LevelShape(s, on); }
    case CallP(n) => GotoShape(off, PTest(Plain(n), s.level, ToClient));
    case CallVPlain(n) => GotoShape(off, VBody(Plain(n), s.level, ToClient));
    case CallAcquire(l) => GotoShape(off, PTest(OfLock(l), s.level, ToOwner(l)));
    case CallRelease(l) => GotoShape(s.(owner := s.owner[l := None]), CallV(l, ToClient));
    case CallYield => GotoShape(off, YieldBody(s.level, ToClient));
    case CallWait(c, l) => GotoShape(s.(owner := s.owner[l := None]), CallV(l, ToSleep(c, l, s.level)));
    case Continue => ContinueShape(s);
    case DeviceV(n) =>
      QueueHead(s, SemQueue(Plain(n)));
      Release1Shape(s, Plain(n));
    case DeviceYield => FlagShape(s);
    case _ => OthersShape(s, a);
  }

  lemma LevelShape(s: Kernel, on: bool)
    requires Formed(s) && Pcs(s)
    ensures Formed(s.(level := on)) && Pcs(s.(level := on))
  {
    QuietShape(s, s.(level := on));
  }

  lemma FlagShape(s: Kernel)
    requires Formed(s) && Pcs(s)
    ensures Formed(s.(yieldOnReturn := true)) && Pcs(s.(yieldOnReturn := true))
  {
    QuietShape(s, s.(yieldOnReturn := true));
  }

  lemma QueueHead(s: Kernel, q: Queue)
    requires Closed(s)
    ensures QueueAt(s, q) != [] ==> QueueAt(s, q)[0] in s.threads
  {
    assert QueueAt(s, q) != [] ==> QueueAt(s, q)[0] in QueueAt(s, q);
  }

  lemma LockKnown(s: Kernel, l: Lock)
    requires Formed(s) && l in s.owner
    ensures OfLock(l) in s.value
  {
  }
}
