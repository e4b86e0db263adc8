/** One semaphore, of a client or of a lock, as the kernel's steps treat it: who is in P, who is
    in V, and when its value and its lock's holder change. Clients of the kernel rest on this. */
module KernelUses {
  import opened Common
  import opened Kernels
  import opened KernelPlaces
  import opened KernelInvariants
  import opened KernelSteps
  import opened KernelEnds

  /** In P before the unit is taken; in Release before V; in V before the unit is given; in Wait
      with the semaphore's lock, until it acquires that again; or none of these. */
  datatype Use = Apart | Trying | Releasing | Giving | Pausing

  function UseAfter(m: Sem, k: Cont): Use {
    if k.ToSleep? && m == OfLock(k.l) then Pausing else Apart
  }

  function UseOf(m: Sem, pc: Pc): Use {
    match pc
    case PTest(n, _, _) => if n == m then Trying else Apart
    case PWait(n, _, _) => if n == m then Trying else Apart
    case VBody(n, _, k) => if UseAfter(m, k) == Pausing then Pausing else if n == m then Giving else Apart
    case CallV(l, k) => if UseAfter(m, k) == Pausing then Pausing else if OfLock(l) == m then Releasing else Apart
    case Tick(k) => UseAfter(m, k)
    case YieldBody(_, k) => UseAfter(m, k)
    case YieldBack(_, k) => UseAfter(m, k)
    case Join(_, l, _) => if OfLock(l) == m then Pausing else Apart
    case CondWait(_, l) => if OfLock(l) == m then Pausing else Apart
    case _ => Apart
  }

  function UseBy(s: Kernel, m: Sem, t: Tid): Use {
    if t in s.threads then UseOf(m, s.threads[t].pc) else Apart
  }

  ghost predicate OthersSame(s: Kernel, s': Kernel, m: Sem) {
    forall t :: t != s.current ==> UseBy(s', m, t) == UseBy(s, m, t)
  }

  /** The code of P finds a unit. */
  predicate Takes(s: Kernel, a: Action, m: Sem)
    requires s.current in s.threads && m in s.value
  {
    a == Continue && !Asleep(s) && UseBy(s, m, s.current) == Trying && s.value[m] > 0
  }

  /** The code of V, or a handler's V. */
  predicate Gives(s: Kernel, a: Action, m: Sem)
    requires s.current in s.threads
  {
    (a == Continue && !Asleep(s) && Me(s).pc.VBody? && Me(s).pc.m == m) || (m.Plain? && a == DeviceV(m.n))
  }

  /** The use that a call begins. */
  function UseIn(a: Action, m: Sem, before: Use): Use {
    match a
    case CallP(n) => if Plain(n) == m then Trying else before
    case CallVPlain(n) => if Plain(n) == m then Giving else before
    case CallAcquire(l) => if OfLock(l) == m then Trying else before
    case CallRelease(l) => if OfLock(l) == m then Releasing else before
    case CallWait(_, l) => if OfLock(l) == m then Pausing else before
    case _ => before
  }

  /** The use of the running thread after a step. */
  function NextUse(s: Kernel, a: Action, m: Sem): Use
    requires s.current in s.threads && m in s.value
  {
    var u := UseBy(s, m, s.current);
    if a == Continue && !Asleep(s) then
      match u
      case Apart => Apart
      case Trying => if s.value[m] == 0 then Trying else Apart
      case Releasing => Giving
      case Giving => Apart
      case Pausing => if Me(s).pc.CondWait? then Trying else Pausing
    else UseIn(a, m, u)
  }

  /** The value moves only where a unit is taken or given, and with it the holder of a lock. */
  ghost predicate UnitsMove(s: Kernel, a: Action, s': Kernel, m: Sem)
    requires s.current in s.threads && m in s.value
  {
    && m in s'.value
    && s'.value[m] == s.value[m] + Unit(Gives(s, a, m)) - Unit(Takes(s, a, m))
    && (m.OfLock? && m.l in s.log.holder ==>
          && m.l in s'.log.holder
          && s'.log.holder[m.l] == if Gives(s, a, m) then None else if Takes(s, a, m) then Some(s.current) else s.log.holder[m.l])
  }

  /** What a step does for the running thread. */
  ghost predicate MyUse(s: Kernel, a: Action, s': Kernel, m: Sem)
    requires s.current in s.threads && m in s.value
  {
    UseBy(s', m, s.current) == NextUse(s, a, m) && UnitsMove(s, a, s', m)
  }

  lemma EndsOthers(s: Kernel, a: Action, s': Kernel, m: Sem)
    requires s.current in s.threads
    requires s.doomed.Some? ==> s.doomed.value in s.threads && s.threads[s.doomed.value].pc.Finished?
    requires if a.CallFinish? then Finishes(s, s') else AllLive(s, s') || (a.Continue? && Buries(s, s'))
    ensures OthersSame(s, s', m)
  {
    forall t | t != s.current
      ensures UseBy(s', m, t) == UseBy(s, m, t)
    {
      if t in s.threads && s.doomed != Some(t) {
        assert Lives(s, s', t);
      }
    }
  }

  lemma AfterUse(m: Sem, was: bool, k: Cont)
    ensures UseOf(m, if was then Tick(k) else After(k)) == UseOf(m, After(k)) == UseAfter(m, k)
  {
  }

  /** The running thread goes on to `pc`, and no unit moves. */
  lemma QuietUse(s: Kernel, a: Action, s': Kernel, pc: Pc, m: Sem)
    requires s.current in s.threads && m in s.value && !Takes(s, a, m) && !Gives(s, a, m)
    requires s.current in s'.threads && s'.threads[s.current].pc == pc && s'.value == s.value && s'.log.holder == s.log.holder
    requires UseOf(m, pc) == NextUse(s, a, m)
    ensures MyUse(s, a, s', m)
  {
    hide UseOf, NextUse, Takes, Gives;
  }

  lemma TakeUse(s: Kernel, n: Sem, was: bool, k: Cont, m: Sem)
    requires s.current in s.threads && Formed(s) && n in s.value && m in s.value && !Asleep(s) && s.value[n] > 0
    requires Me(s).pc == PTest(n, was, k) || Me(s).pc == PWait(n, was, k)
    requires !k.ToSleep?
    ensures MyUse(s, Continue, Return(Take1(s, n), was, k), m)
  {
    hide Formed, After;
    AfterUse(m, was, k);
  }

  lemma TestUse(s: Kernel, n: Sem, was: bool, k: Cont, m: Sem)
    requires s.current in s.threads && Formed(s) && n in s.value && m in s.value && !Asleep(s)
    requires Me(s).pc == PTest(n, was, k) || Me(s).pc == PWait(n, was, k)
    requires !k.ToSleep?
    ensures MyUse(s, Continue, TestValue(s, n, was, k), m)
  {
    hide Formed, QueueAt, MyUse;
    if s.value[n] == 0 {
      QuietUse(s, Continue, TestValue(s, n, was, k), PWait(n, was, k), m);
    } else {
      TakeUse(s, n, was, k, m);
    }
  }

  lemma GiveUse(s: Kernel, n: Sem, was: bool, k: Cont, m: Sem)
    requires s.current in s.threads && Formed(s) && n in s.value && m in s.value && !Asleep(s) && Me(s).pc == VBody(n, was, k)
    requires QueueAt(s, SemQueue(n)) != [] ==> QueueAt(s, SemQueue(n))[0] in s.threads
    ensures MyUse(s, Continue, Return(Release1(s, n), was, k), m)
  {
    hide Formed, Wake, QueueAt, After;
    AfterUse(m, was, k);
    WakeKeeps(s, SemQueue(n));
  }

  lemma DispatchUse(s: Kernel, m: Sem)
    requires s.current in s.threads && s.ready != [] && s.ready[0] in s.threads
    requires s.doomed.Some? ==> s.doomed.value in s.threads && s.threads[s.doomed.value].pc.Finished?
    ensures var s' := Dispatch(s);
            s'.value == s.value && s'.log.holder == s.log.holder && UseBy(s', m, s.current) == UseBy(s, m, s.current)
  {
  }

  lemma YieldUse(s: Kernel, was: bool, k: Cont, m: Sem)
    requires s.current in s.threads && m in s.value && s.ready != [] && s.ready[0] in s.threads
    requires Me(s).pc == YieldBody(was, k)
    requires s.doomed.Some? ==> s.doomed.value in s.threads && s.threads[s.doomed.value].pc.Finished?
    ensures MyUse(s, Continue, Dispatch(MakeReady(Goto(s, YieldBack(was, k)), s.current)), m)
  {
    hide Dispatch;
    DispatchUse(MakeReady(Goto(s, YieldBack(was, k)), s.current), m);
  }

  /** The running thread is at `pc` after the step, and no unit has moved. */
  ghost predicate Quiet(s: Kernel, s': Kernel, pc: Pc) {
    && s.current in s'.threads && s'.threads[s.current].pc == pc
    && s'.value == s.value && s'.log.holder == s.log.holder
  }

  /** Where code that does not touch a semaphore or switch goes. */
  function MovePc(s: Kernel): Pc
    requires s.current in s.threads
  {
    match Me(s).pc
    case Start => Tick(ToClient)
    case Tick(k) => if s.yieldOnReturn then YieldBody(true, k) else After(k)
    case YieldBody(was, k) => if was then Tick(k) else After(k)
    case YieldBack(was, k) => if was then Tick(k) else After(k)
    case SetOwner(_) => Client
    case CallV(l, k) => VBody(OfLock(l), s.level, k)
    case Join(c, l, _) => CondWait(c, l)
    case CondWait(_, l) => PTest(OfLock(l), s.level, ToOwner(l))
    case _ => Me(s).pc
  }

  lemma Moves(s: Kernel)
    requires s.current in s.threads && Formed(s) && Closed(s) && PcKnown(s) && Enabled(s, Continue) && !Asleep(s)
    requires !(Me(s).pc.PTest? || Me(s).pc.PWait? || Me(s).pc.VBody? || (Me(s).pc.YieldBody? && s.ready != []))
    ensures Quiet(s, DoContinue(s), MovePc(s))
  {
    hide Formed, Closed, PcKnown, Enabled, DoContinue, MovePc, Quiet;
    if Me(s).pc.Tick? || Me(s).pc.YieldBody? || Me(s).pc.YieldBack? {
      TickMoves(s);
    } else if Me(s).pc.CallV? || Me(s).pc.Join? {
      LockMoves(s);
    } else {
      OtherMoves(s);
    }
  }

  lemma TickMoves(s: Kernel)
    requires s.current in s.threads && Formed(s) && Closed(s) && PcKnown(s) && Enabled(s, Continue) && !Asleep(s)
    requires Me(s).pc.Tick? || (Me(s).pc.YieldBody? && s.ready == []) || Me(s).pc.YieldBack?
    ensures Quiet(s, DoContinue(s), MovePc(s))
  {
    hide Formed, Closed, PcKnown, Enabled, After;
  }

  lemma LockMoves(s: Kernel)
    requires s.current in s.threads && Formed(s) && Closed(s) && PcKnown(s) && Enabled(s, Continue) && !Asleep(s)
    requires Me(s).pc.CallV? || Me(s).pc.Join?
    ensures Quiet(s, DoContinue(s), MovePc(s))
  {
    hide Formed, Closed, PcKnown, Enabled, QueueAt, TestValue, Release1, Return, Dispatch, MakeReady, After;
  }

  lemma OtherMoves(s: Kernel)
    requires s.current in s.threads && Formed(s) && Closed(s) && PcKnown(s) && Enabled(s, Continue) && !Asleep(s)
    requires !(Me(s).pc.PTest? || Me(s).pc.PWait? || Me(s).pc.VBody? || Me(s).pc.Tick? || Me(s).pc.YieldBody? || Me(s).pc.YieldBack?)
    requires !(Me(s).pc.CallV? || Me(s).pc.Join?)
    ensures Quiet(s, DoContinue(s), MovePc(s))
  {
    hide Formed, Closed, PcKnown, Enabled, QueueAt, TestValue, Release1, Return, Dispatch, MakeReady, After, Block;
  }

  lemma MovesUse(s: Kernel, m: Sem)
    requires s.current in s.threads && m in s.value && !Asleep(s)
    requires !(Me(s).pc.PTest? || Me(s).pc.PWait? || Me(s).pc.VBody?)
    ensures UseOf(m, MovePc(s)) == NextUse(s, Continue, m) && !Takes(s, Continue, m) && !Gives(s, Continue, m)
  {
  }

  lemma MoveUse(s: Kernel, m: Sem)
    requires s.current in s.threads && Formed(s) && Closed(s) && PcKnown(s) && Enabled(s, Continue) && m in s.value && !Asleep(s)
    requires !(Me(s).pc.PTest? || Me(s).pc.PWait? || Me(s).pc.VBody? || (Me(s).pc.YieldBody? && s.ready != []))
    ensures MyUse(s, Continue, DoContinue(s), m)
  {
    hide Formed, Closed, PcKnown, DoContinue, MovePc, UseOf, NextUse, Takes, Gives, MyUse;
    Moves(s);
    MovesUse(s, m);
    QuietUse(s, Continue, DoContinue(s), MovePc(s), m);
  }

  lemma ContinueUse(s: Kernel, m: Sem)
    requires s.current in s.threads && Formed(s) && Closed(s) && PcKnown(s) && Enabled(s, Continue) && m in s.value
    requires PcOk(s, Me(s).pc)
    requires s.doomed.Some? ==> s.doomed.value in s.threads && s.threads[s.doomed.value].pc.Finished?
    ensures MyUse(s, Continue, DoContinue(s), m)
  {
    hide Formed, Closed, Dispatch, TestValue, Release1, MakeReady, Return, UseOf;
    NextReady(s);
    if Asleep(s) {
      DispatchUse(s, m);
    } else {
      hide MyUse;
      match Me(s).pc
      case PTest(n, was, k) => TestUse(s, n, was, k, m);
      case PWait(n, was, k) => TestUse(s, n, was, k, m);
      case VBody(n, was, k) =>
        QueueHead(s, SemQueue(n));
        GiveUse(s, n, was, k, m);
      case YieldBody(was, k) =>
        if s.ready == [] { MoveUse(s, m); } else { YieldUse(s, was, k, m); }
      case _ => MoveUse(s, m);
    }
  }

  /** Where a call leads. */
  function CallPc(s: Kernel, a: Action): Pc
    requires s.current in s.threads
  {
    match a
    case UserInstruction => Tick(ToClient)
    case CallSetLevel(on) => if on && !s.level then Tick(ToClient) else Me(s).pc
    case CallFork(_) => if s.level then Tick(ToClient) else Client
    case CallP(n) => PTest(Plain(n), s.level, ToClient)
    case CallVPlain(n) => VBody(Plain(n), s.level, ToClient)
    case CallAcquire(l) => PTest(OfLock(l), s.level, ToOwner(l))
    case CallRelease(l) => CallV(l, ToClient)
    case CallYield => YieldBody(s.level, ToClient)
    case CallFinish => Finished
    case CallWait(c, l) => CallV(l, ToSleep(c, l, s.level))
    case _ => Me(s).pc
  }

  lemma CallsTo(s: Kernel, a: Action)
    requires s.current in s.threads && Formed(s) && Closed(s) && PcKnown(s) && Enabled(s, a)
    requires !(a.CallSignal? || a.CallBroadcast? || a.DeviceV? || a.Continue?)
    ensures Quiet(s, Apply(s, a), CallPc(s, a)) && (a.DeviceYield? || Me(s).pc.Client?)
  {
    hide Formed, Closed, PcKnown;
  }

  lemma CallsUse(s: Kernel, a: Action, m: Sem)
    requires s.current in s.threads && m in s.value && (a.DeviceYield? || Me(s).pc.Client?)
    requires !(a.CallSignal? || a.CallBroadcast? || a.DeviceV? || a.Continue?)
    ensures UseOf(m, CallPc(s, a)) == NextUse(s, a, m) && !Takes(s, a, m) && !Gives(s, a, m)
  {
  }

  lemma CallUse(s: Kernel, a: Action, m: Sem)
    requires s.current in s.threads && Formed(s) && Closed(s) && PcKnown(s) && Enabled(s, a) && m in s.value
    requires !(a.CallSignal? || a.CallBroadcast? || a.DeviceV? || a.Continue?)
    ensures MyUse(s, a, Apply(s, a), m)
  {
    hide Formed, Closed, PcKnown, Apply, Enabled, CallPc, UseOf, NextUse, Takes, Gives, MyUse;
    CallsTo(s, a);
    CallsUse(s, a, m);
    QuietUse(s, a, Apply(s, a), CallPc(s, a), m);
  }

  lemma SignalUse(s: Kernel, a: Action, m: Sem)
    requires s.current in s.threads && Formed(s) && Closed(s) && PcKnown(s) && Enabled(s, a) && m in s.value
    requires a.CallSignal? || a.CallBroadcast?
    ensures MyUse(s, a, Apply(s, a), m)
  {
    hide Formed, Closed, Wake, WakeAll, QueueAt, MyUse;
    if a.CallSignal? {
      QueueHead(s, CondQueue(a.c));
      WakeKeeps(s, CondQueue(a.c));
    } else {
      ClosedQueue(s, CondQueue(a.c));
      WakeAllKeeps(s, CondQueue(a.c));
    }
    QuietUse(s, a, Apply(s, a), if s.level then Tick(ToClient) else Client, m);
  }

  lemma DeviceUse(s: Kernel, n: nat, m: Sem)
    requires s.current in s.threads && Formed(s) && Closed(s) && PcKnown(s) && Enabled(s, DeviceV(n)) && m in s.value
    ensures MyUse(s, DeviceV(n), Apply(s, DeviceV(n)), m)
  {
    hide Formed, Closed, Wake, QueueAt, UseOf;
    QueueHead(s, SemQueue(Plain(n)));
    WakeKeeps(s, SemQueue(Plain(n)));
  }

  /** Every step of the kernel, as a semaphore sees it: only the running thread enters or leaves
      P and V, and the value changes where P takes a unit and where V gives one. */
  lemma StepUse(s: Kernel, a: Action, m: Sem, init: map<Sem, nat>)
    requires Inv(s, init) && Enabled(s, a) && m in init
    ensures Closed(s) && PcKnown(s) && s.current in s.threads && m in s.value
    ensures OthersSame(s, Apply(s, a), m) && MyUse(s, a, Apply(s, a), m)
  {
    hide Inv, Formed, Closed, PcKnown, Apply, DoContinue, MyUse, OthersSame, Enabled, Finishes, AllLive, Buries;
    EndsKnown(s, a, init);
    InvValue(s, init);
    EndsOthers(s, a, Apply(s, a), m);
    if a.Continue? {
      ContinueUse(s, m);
      Continues(s);
    } else if a.CallSignal? || a.CallBroadcast? {
      SignalUse(s, a, m);
    } else if a.DeviceV? {
      DeviceUse(s, a.n, m);
    } else {
      CallUse(s, a, m);
    }
  }

  lemma Continues(s: Kernel)
    requires Formed(s) && Closed(s) && PcKnown(s) && Enabled(s, Continue)
    ensures Apply(s, Continue) == DoContinue(s)
  {
  }

  lemma InvValue(s: Kernel, init: map<Sem, nat>)
    requires Inv(s, init)
    ensures Formed(s) && s.value.Keys == init.Keys && s.current in s.threads && PcOk(s, Me(s).pc)
  {
  }
}
