/** How threads end (Thread::Finish, Scheduler::Run): which are destroyed, and which never are. */
module KernelEnds {
  import opened Common
  import opened Kernels
  import opened KernelPlaces
  import opened KernelInvariants
  import opened KernelSteps
  import opened KernelRuns

  // ---------------------------------------------------------------- one step

  ghost predicate Dead(pc: Pc) {
    pc.Finished? || pc.Gone?
  }

  /** The thread is where it was, or it was forked, or it was running and went on, but not to
      its end. */
  ghost predicate Lives(s: Kernel, s': Kernel, t: Tid)
    requires s.current in s.threads && t in s.threads
  {
    && t in s'.threads
    && (s'.threads[t].pc == s.threads[t].pc
        || (t == s.current && Me(s).status == Running && !Dead(s'.threads[t].pc))
        || (s.threads[t].pc.Unborn? && s'.threads[t].pc.Start?))
  }

  ghost predicate Newborn(s: Kernel, s': Kernel) {
    forall t :: t in s'.threads && t !in s.threads ==> s'.threads[t].pc.Unborn?
  }

  ghost predicate AllLive(s: Kernel, s': Kernel)
    requires s.current in s.threads
  {
    && s'.doomed == s.doomed && Newborn(s, s')
    && forall t :: t in s.threads ==> Lives(s, s', t)
  }

  /** The thread waiting to be destroyed is, and nothing ends beside it. */
  ghost predicate Buries(s: Kernel, s': Kernel)
    requires s.current in s.threads
  {
    && s.doomed.Some? && s'.doomed.None? && Newborn(s, s')
    && s.doomed.value in s'.threads && s'.threads[s.doomed.value].pc.Gone?
    && forall t :: t in s.threads && s.doomed != Some(t) ==> Lives(s, s', t)
  }

  /** The running thread comes to its end, and takes the place of the one that waits. */
  ghost predicate Finishes(s: Kernel, s': Kernel)
    requires s.current in s.threads
  {
    && Me(s).status == Running && s'.doomed == Some(s.current) && Newborn(s, s')
    && s.current in s'.threads && s'.threads[s.current].pc.Finished?
    && forall t :: t in s.threads && t != s.current ==> Lives(s, s', t)
  }

  lemma DispatchEnds(s: Kernel)
    requires s.current in s.threads && s.ready != [] && s.ready[0] in s.threads
    requires s.doomed.Some? ==> s.doomed.value in s.threads
    ensures AllLive(s, Dispatch(s)) || Buries(s, Dispatch(s))
  {
  }

  lemma YieldEnds(s: Kernel, was: bool, k: Cont)
    requires s.current in s.threads && Me(s).status == Running && s.ready != [] && s.ready[0] in s.threads
    requires s.doomed.Some? ==> s.doomed.value in s.threads && s.doomed.value != s.current
    ensures var s' := Dispatch(MakeReady(Goto(s, YieldBack(was, k)), s.current));
            AllLive(s, s') || Buries(s, s')
  {
    hide Dispatch;
    var s1 := MakeReady(Goto(s, YieldBack(was, k)), s.current);
    DispatchEnds(s1);
    hide MakeReady;
    forall t | t in s.threads && (s.doomed != Some(t) || AllLive(s1, Dispatch(s1)))
      ensures Lives(s, Dispatch(s1), t)
    {
      assert Lives(s1, Dispatch(s1), t);
    }
  }

  lemma WakeEnds(s: Kernel, q: Queue)
    requires s.current in s.threads && (QueueAt(s, q) != [] ==> QueueAt(s, q)[0] in s.threads)
    ensures SamePcs(s, Wake(s, q))
  {
  }

  ghost predicate SamePcs(s: Kernel, s': Kernel) {
    && s'.doomed == s.doomed && s'.current == s.current && s'.threads.Keys == s.threads.Keys
    && forall t :: t in s.threads ==> s'.threads[t].pc == s.threads[t].pc
  }

  lemma {:induction false} WakeAllEnds(s: Kernel, q: Queue)
    requires s.current in s.threads && forall t :: t in QueueAt(s, q) ==> t in s.threads
    ensures SamePcs(s, WakeAll(s, q))
    decreases |QueueAt(s, q)|
  {
    if QueueAt(s, q) != [] {
      WakeEnds(s, q);
      WakeAllEnds(Wake(s, q), q);
    }
  }

  lemma GiveEnds(s: Kernel, m: Sem)
    requires Formed(s) && m in s.value
    requires QueueAt(s, SemQueue(m)) != [] ==> QueueAt(s, SemQueue(m))[0] in s.threads
    ensures SamePcs(s, Release1(s, m))
  {
    hide QueueAt;
    WakeEnds(s, SemQueue(m));
    hide Wake;
  }

  /** Only the running thread has moved on, if any. */
  lemma GotoEnds(s: Kernel, s1: Kernel, s': Kernel, tcb: Tcb)
    requires s.current in s.threads && Me(s).status == Running && SamePcs(s, s1)
    requires s'.doomed == s.doomed && s'.threads == s1.threads[s.current := tcb] && !Dead(tcb.pc)
    ensures AllLive(s, s')
  {
  }

  lemma ReturnEnds(s: Kernel, s1: Kernel, was: bool, k: Cont)
    requires s.current in s.threads && Me(s).status == Running && SamePcs(s, s1)
    ensures AllLive(s, Return(s1, was, k))
  {
    GotoEnds(s, s1, Return(s1, was, k), Tcb(if was then Tick(k) else After(k), Running));
    hide AllLive;
  }

  lemma TestEnds(s: Kernel, m: Sem, was: bool, k: Cont)
    requires s.current in s.threads && Formed(s) && m in s.value && Me(s).status == Running
    ensures AllLive(s, TestValue(s, m, was, k))
  {
    hide Formed, QueueAt, AllLive;
    var tcb := if s.value[m] == 0 then Tcb(PWait(m, was, k), Blocked) else Tcb(if was then Tick(k) else After(k), Running);
    GotoEnds(s, s, TestValue(s, m, was, k), tcb);
  }

  lemma ContinueEnds(s: Kernel)
    requires Formed(s) && Closed(s) && PcKnown(s) && Enabled(s, Continue)
    requires Fits(Me(s)) && (s.doomed.Some? ==> Asleep(s) || s.doomed.value != s.current)
    ensures var s' := DoContinue(s);
            AllLive(s, s') || Buries(s, s')
  {
    assert s.current in s.threads && (s.ready != [] ==> s.ready[0] in s.ready && s.ready[0] in s.threads);
    assert s.doomed.Some? ==> s.doomed.value in s.threads;
    hide Formed, Closed, Dispatch, Release1, TestValue, MakeReady, After, Return, AllLive, Buries, SamePcs;
    if Asleep(s) {
      DispatchEnds(s);
    } else {
      match Me(s).pc
      case PTest(m, was, k) => TestEnds(s, m, was, k);
      case PWait(m, was, k) => TestEnds(s, m, was, k);
      case VBody(m, was, k) =>
        QueueHead(s, SemQueue(m));
        GiveEnds(s, m);
        ReturnEnds(s, Release1(s, m), was, k);
      case YieldBody(was, k) =>
        if s.ready == [] { ReturnEnds(s, s, was, k); } else { YieldEnds(s, was, k); }
      case YieldBack(was, k) => ReturnEnds(s, s, was, k);
      case _ => MoveEnds(s);
    }
  }

  lemma MoveEnds(s: Kernel)
    requires s.current in s.threads && Formed(s) && Closed(s) && PcKnown(s) && Enabled(s, Continue) && !Asleep(s)
    requires !(Me(s).pc.PTest? || Me(s).pc.PWait? || Me(s).pc.VBody? || Me(s).pc.YieldBody? || Me(s).pc.YieldBack?)
    requires Fits(Me(s))
    ensures AllLive(s, DoContinue(s))
  {
    hide Formed, Closed, QueueAt, AllLive, SamePcs, TestValue, Return, Dispatch, Release1, MakeReady;
    var s' := DoContinue(s);
    Same(s);
    if Me(s).pc.Tick? {
      GotoEnds(s, s, s', Tcb(if s.yieldOnReturn then YieldBody(true, Me(s).pc.k) else After(Me(s).pc.k), Running));
    } else if Me(s).pc.CallV? {
      GotoEnds(s, s, s', Tcb(VBody(OfLock(Me(s).pc.l), s.level, Me(s).pc.k), Running));
    } else if Me(s).pc.Join? {
      GotoEnds(s, s, s', Tcb(CondWait(Me(s).pc.c, Me(s).pc.l), Blocked));
    } else if Me(s).pc.CondWait? {
      GotoEnds(s, s, s', Tcb(PTest(OfLock(Me(s).pc.l), s.level, ToOwner(Me(s).pc.l)), Running));
    } else {
      GotoEnds(s, s, s', Tcb(if Me(s).pc.Start? then Tick(ToClient) else Client, Running));
    }
  }

  lemma Same(s: Kernel)
    ensures SamePcs(s, s)
  {
  }

  /** What a step does to ends of threads. */
  lemma StepEnds(s: Kernel, a: Action)
    requires Formed(s) && Closed(s) && PcKnown(s) && Threads(s) && Enabled(s, a)
    ensures var s' := Apply(s, a);
            if a.CallFinish? then Finishes(s, s')
            else AllLive(s, s') || (a.Continue? && Buries(s, s'))
  {
    hide Formed, Closed, DoContinue, WakeAll, Wake, Release1, QueueAt, AllLive, Buries;
    if a.Continue? {
      assert s.doomed.Some? ==> s.threads[s.doomed.value].pc.Finished? && Fits(s.threads[s.doomed.value]);
      ContinueEnds(s);
    } else if a.CallSignal? || a.CallBroadcast? || a.DeviceV? || a.DeviceYield? {
      HandlerEnds(s, a);
    } else if !a.CallFinish? {
      CallEnds(s, a);
    }
  }

  lemma HandlerEnds(s: Kernel, a: Action)
    requires s.current in s.threads && Formed(s) && Closed(s) && PcKnown(s) && Enabled(s, a)
    requires a.CallSignal? || a.CallBroadcast? || a.DeviceV? || a.DeviceYield?
    ensures AllLive(s, Apply(s, a))
  {
    hide Formed, Closed, WakeAll, Wake, Release1, QueueAt, Return;
    if a.CallSignal? {
      QueueHead(s, CondQueue(a.c));
      WakeEnds(s, CondQueue(a.c));
      ReturnEnds(s, Wake(s, CondQueue(a.c)).(level := false), s.level, ToClient);
    } else if a.CallBroadcast? {
      ClosedQueue(s, CondQueue(a.c));
      WakeAllEnds(s, CondQueue(a.c));
      ReturnEnds(s, WakeAll(s, CondQueue(a.c)).(level := false), s.level, ToClient);
    } else if a.DeviceV? {
      QueueHead(s, SemQueue(Plain(a.n)));
      GiveEnds(s, Plain(a.n));
    }
  }

  lemma CallEnds(s: Kernel, a: Action)
    requires s.current in s.threads && Formed(s) && Closed(s) && PcKnown(s) && Enabled(s, a)
    requires !(a.CallSignal? || a.CallBroadcast? || a.DeviceV? || a.DeviceYield? || a.Continue? || a.CallFinish?)
    ensures AllLive(s, Apply(s, a))
  {
    hide Formed, Closed, QueueAt;
    if a.CallNew? || a.CallFork? || a.CallSetLevel? {
      assert AllLive(s, Apply(s, a));
    } else {
      hide AllLive;
      GotoEnds(s, s, Apply(s, a), Apply(s, a).threads[s.current]);
    }
  }

  // ---------------------------------------------------------------- every run

  /** Finished, and not waiting to be destroyed. */
  ghost predicate Lost(s: Kernel, t: Tid) {
    t in s.threads && s.threads[t].pc.Finished? && s.doomed != Some(t)
  }

  /** A step from a state with the invariant; only a thread that is not dead runs. */
  lemma EndsKnown(s: Kernel, a: Action, init: map<Sem, nat>)
    requires Inv(s, init) && Enabled(s, a)
    ensures Closed(s) && PcKnown(s) && s.current in s.threads
    ensures Me(s).status == Running ==> !Dead(Me(s).pc)
    ensures s.doomed.Some? ==> s.doomed.value in s.threads && s.threads[s.doomed.value].pc.Finished?
    ensures var s' := Apply(s, a);
            if a.CallFinish? then Finishes(s, s') else AllLive(s, s') || (a.Continue? && Buries(s, s'))
  {
    InvReady(s, init);
    StepEnds(s, a);
    assert Threads(s) && Fits(Me(s));
    hide Inv, Formed, Closed, PcKnown, Apply, Enabled, Finishes, AllLive, Buries;
  }

  /** The thread that waits to be destroyed stops waiting without being destroyed in one case:
      another one finishes first. */
  lemma LosesIff(s: Kernel, a: Action, t: Tid, init: map<Sem, nat>)
    requires Inv(s, init) && Enabled(s, a) && s.doomed == Some(t)
    ensures Closed(s) && PcKnown(s)
    ensures var s' := Apply(s, a);
            t in s'.threads && (s'.doomed != Some(t) && !s'.threads[t].pc.Gone? <==> a.CallFinish?)
  {
    hide Inv, Formed, Closed, PcKnown, Apply, Enabled;
    EndsKnown(s, a, init);
  }

  lemma StepLost(s: Kernel, a: Action, t: Tid, init: map<Sem, nat>)
    requires Inv(s, init) && Enabled(s, a)
    ensures Closed(s) && PcKnown(s)
    ensures Lost(Apply(s, a), t) <==> Lost(s, t) || (a.CallFinish? && s.doomed == Some(t))
  {
    hide Inv, Formed, Closed, PcKnown, Apply, Enabled;
    EndsKnown(s, a, init);
  }

  /** Dead threads stay dead, and destroyed ones destroyed. */
  lemma StepDead(s: Kernel, a: Action, t: Tid, init: map<Sem, nat>)
    requires Inv(s, init) && Enabled(s, a) && t in s.threads && Dead(s.threads[t].pc)
    ensures Closed(s) && PcKnown(s)
    ensures var s' := Apply(s, a);
            t in s'.threads && Dead(s'.threads[t].pc) && (s.threads[t].pc.Gone? ==> s'.threads[t].pc.Gone?)
  {
    hide Inv, Formed, Closed, PcKnown, Apply, Enabled;
    EndsKnown(s, a, init);
  }

  /** The step is a call of Finish. */
  ghost predicate FinishCall(s: Kernel, s': Kernel) {
    Formed(s) && Closed(s) && PcKnown(s) && Enabled(s, CallFinish) && s' == Apply(s, CallFinish)
  }

  ghost predicate Overtaken(run: seq<Kernel>, i: nat, t: Tid)
    requires i < |run|
  {
    exists j :: 0 <= j < i && run[j].doomed == Some(t) && FinishCall(run[j], run[j + 1])
  }

  /** In every run, the finished threads that are neither destroyed nor waiting to be are
      exactly those that were waiting when another thread called Finish. */
  lemma {:induction false} LostIff(run: seq<Kernel>, init: map<Sem, nat>, locks: set<Lock>, i: nat, t: Tid)
    requires IsRun(run, init, locks) && i < |run|
    ensures Lost(run[i], t) <==> Overtaken(run, i, t)
  {
    if i == 0 {
      InitialInv(run[0], init, locks);
    } else {
      var h := i - 1;
      LostIff(run, init, locks, h, t);
      RunInv(run, init, locks, h);
      assert CanStep(run[h], run[h + 1]);
      var a :| Enabled(run[h], a) && run[h + 1] == Apply(run[h], a);
      StepLost(run[h], a, t, init);
      if FinishCall(run[h], run[h + 1]) { StepLost(run[h], CallFinish, t, init); }
      Later(run, i, t);
    }
  }

  lemma Later(run: seq<Kernel>, i: nat, t: Tid)
    requires 0 < i < |run|
    ensures Overtaken(run, i, t) <==>
            Overtaken(run, i - 1, t) || (run[i - 1].doomed == Some(t) && FinishCall(run[i - 1], run[i]))
  {
    hide FinishCall;
    if run[i - 1].doomed == Some(t) && FinishCall(run[i - 1], run[i]) {
      assert run[i - 1 + 1] == run[i];
    }
  }

  /** A thread that is lost is never destroyed. */
  lemma {:induction false} NeverDestroyed(run: seq<Kernel>, init: map<Sem, nat>, locks: set<Lock>, i: nat, j: nat, t: Tid)
    requires IsRun(run, init, locks) && i <= j < |run| && Lost(run[i], t)
    ensures Lost(run[j], t)
  {
    LostIff(run, init, locks, i, t);
    LostIff(run, init, locks, j, t);
    hide IsRun, FinishCall, Lost;
  }

  /** However long a run goes on, a dead thread stays dead, and a destroyed one destroyed. */
  lemma {:induction false} StaysDead(run: seq<Kernel>, init: map<Sem, nat>, locks: set<Lock>, i: nat, j: nat, t: Tid)
    requires IsRun(run, init, locks) && i <= j < |run| && t in run[i].threads && Dead(run[i].threads[t].pc)
    ensures t in run[j].threads && Dead(run[j].threads[t].pc)
    ensures run[i].threads[t].pc.Gone? ==> run[j].threads[t].pc.Gone?
  {
    hide Inv, Formed, Closed, PcKnown, Enabled, Apply, Starts;
    if i < j {
      var h := j - 1;
      StaysDead(run, init, locks, i, h, t);
      RunInv(run, init, locks, h);
      assert CanStep(run[h], run[h + 1]);
      var a :| Enabled(run[h], a) && run[h + 1] == Apply(run[h], a);
      StepDead(run[h], a, t, init);
    }
  }

  // ---------------------------------------------------------------- a run that loses one

  ghost predicate Steps(run: seq<Kernel>) {
    forall i :: 0 <= i < |run| - 1 ==> CanStep(run[i], run[i + 1])
  }

  lemma Append(run: seq<Kernel>, a: Action, init: map<Sem, nat>)
    requires run != [] && Steps(run) && Inv(run[|run| - 1], init) && Enabled(run[|run| - 1], a)
    ensures var s := run[|run| - 1];
            Closed(s) && PcKnown(s) && Inv(Apply(s, a), init) && Steps(run + [Apply(s, a)])
  {
    hide Formed, Closed, PcKnown, Enabled, Apply, Inv;
    var s := run[|run| - 1];
    StepInv(s, a, init);
    assert CanStep(s, Apply(s, a)) by { InvReady(s, init); }
    hide CanStep;
  }

  /** Thread `dead` has finished, and `t` is at `pc`, next to run or running. */
  ghost predicate Succeeds(s: Kernel, dead: Tid, t: Tid, pc: Pc) {
    && dead in s.threads && s.threads[dead].pc.Finished? && t in s.threads && s.threads[t].pc == pc && t != dead
    && !s.yieldOnReturn
    && (pc.Start? && s.current == dead ==> s.threads[dead].status != Running && s.ready != [] && s.ready[0] == t)
    && (s.current != dead ==> s.current == t && s.threads[t].status == Running)
  }

  lemma FinishFirst(s: Kernel, next: Tid)
    requires Formed(s) && Closed(s) && PcKnown(s) && Enabled(s, CallFinish) && !s.yieldOnReturn
    requires s.ready != [] && s.ready[0] == next && next != s.current && next in s.threads && s.threads[next].pc == Start
    ensures var s' := Apply(s, CallFinish);
            s'.current == s.current && Succeeds(s', s.current, next, Start)
  {
    hide Formed, Closed;
  }

  lemma NewOneRuns(s: Kernel, dead: Tid, t: Tid)
    requires Formed(s) && Closed(s) && PcKnown(s) && Succeeds(s, dead, t, Start) && s.current == dead
    ensures Enabled(s, Continue)
    ensures var s' := Apply(s, Continue);
            s'.current == t && Succeeds(s', dead, t, Start)
  {
    assert s.current in s.threads;
    hide Formed, Closed, TestValue, Return, Release1, MakeReady;
  }

  lemma NewOneGoesOn(s: Kernel, dead: Tid, t: Tid, pc: Pc)
    requires Formed(s) && Closed(s) && PcKnown(s) && Succeeds(s, dead, t, pc) && s.current == t
    requires pc == Start || pc == Tick(ToClient)
    ensures Enabled(s, Continue)
    ensures var s' := Apply(s, Continue);
            s'.current == t && Succeeds(s', dead, t, if pc == Start then Tick(ToClient) else Client)
  {
    assert s.current in s.threads;
    hide Formed, Closed, TestValue, Return, Release1, MakeReady, Dispatch;
  }

  lemma FinishSecond(s: Kernel, dead: Tid, t: Tid)
    requires Formed(s) && Closed(s) && PcKnown(s) && Succeeds(s, dead, t, Client) && s.current == t
    ensures Enabled(s, CallFinish) && Lost(Apply(s, CallFinish), dead)
  {
    assert s.current in s.threads;
    hide Formed, Closed;
  }

  /** A thread that has not yet run is next, and the running one calls Finish: when the new
      one calls Finish before any other thread gets to run, the first is lost. */
  lemma OvertakenBy(s: Kernel, next: Tid, init: map<Sem, nat>) returns (run: seq<Kernel>)
    requires Inv(s, init) && Me(s) == Tcb(Client, Running) && !s.yieldOnReturn
    requires s.ready != [] && s.ready[0] == next && next != s.current && next in s.threads && s.threads[next].pc == Start
    ensures run != [] && run[0] == s && Steps(run) && Lost(run[|run| - 1], s.current)
  {
    hide Inv, Formed, Closed, PcKnown, Enabled, Apply, Steps, Succeeds, Lost;
    var me := s.current;
    InvReady(s, init);
    Single(s);
    MayFinish(s);
    FinishFirst(s, next);
    Append([s], CallFinish, init);
    var s1 := Apply(s, CallFinish);
    InvReady(s1, init);
    NewOneRuns(s1, me, next);
    Append([s] + [s1], Continue, init);
    var s2 := Apply(s1, Continue);
    InvReady(s2, init);
    NewOneGoesOn(s2, me, next, Start);
    Append([s] + [s1] + [s2], Continue, init);
    var s3 := Apply(s2, Continue);
    InvReady(s3, init);
    NewOneGoesOn(s3, me, next, Tick(ToClient));
    Append([s] + [s1] + [s2] + [s3], Continue, init);
    var s4 := Apply(s3, Continue);
    InvReady(s4, init);
    FinishSecond(s4, me, next);
    Append([s] + [s1] + [s2] + [s3] + [s4], CallFinish, init);
    run := [s] + [s1] + [s2] + [s3] + [s4] + [Apply(s4, CallFinish)];
  }

  lemma Single(s: Kernel)
    ensures Steps([s])
  {
  }

  lemma MayFinish(s: Kernel)
    requires Formed(s) && Me(s) == Tcb(Client, Running)
    ensures Enabled(s, CallFinish)
  {
  }

  /** The first thread, at `pc`, has made another one, which is at `other`. */
  ghost predicate TwoThreads(s: Kernel, pc: Pc, other: Tcb) {
    && s.current == 0 && !s.yieldOnReturn
    && 0 in s.threads && s.threads[0] == Tcb(pc, Running) && 1 in s.threads && s.threads[1] == other
    && (other.pc.Start? ==> s.ready == [1]) && (other.pc.Unborn? ==> s.ready == [] && s.level)
  }

  lemma MakesOne(s: Kernel, init: map<Sem, nat>, locks: set<Lock>)
    requires Starts(s, init, locks) && Formed(s) && Closed(s) && PcKnown(s)
    ensures Enabled(s, CallNew(1)) && TwoThreads(Apply(s, CallNew(1)), Client, Tcb(Unborn, JustCreated))
  {
    hide Formed, Closed, PcKnown;
  }

  lemma ForksIt(s: Kernel)
    requires Formed(s) && Closed(s) && PcKnown(s) && TwoThreads(s, Client, Tcb(Unborn, JustCreated))
    ensures Enabled(s, CallFork(1)) && TwoThreads(Apply(s, CallFork(1)), Tick(ToClient), Tcb(Start, Ready))
  {
    hide Formed, Closed;
  }

  lemma TickPasses(s: Kernel)
    requires Formed(s) && Closed(s) && PcKnown(s) && TwoThreads(s, Tick(ToClient), Tcb(Start, Ready))
    ensures Enabled(s, Continue) && TwoThreads(Apply(s, Continue), Client, Tcb(Start, Ready))
  {
    hide Formed, Closed, TestValue, Return, Release1, MakeReady, Dispatch;
  }

  lemma Chain(run: seq<Kernel>, rest: seq<Kernel>)
    requires run != [] && rest != [] && Steps(run) && Steps(rest) && run[|run| - 1] == rest[0]
    ensures Steps(run + rest[1..])
  {
    hide CanStep;
    var all, n := run + rest[1..], |run| - 1;
    forall i | 0 <= i < |all| - 1
      ensures CanStep(all[i], all[i + 1])
    {
      if i < n {
        assert CanStep(run[i], run[i + 1]);
      } else {
        assert CanStep(rest[i - n], rest[i - n + 1]);
      }
    }
  }

  /** However the kernel is set up, there is a run that loses a thread: the first one makes
      another and finishes, and so does the other before anyone else has run. */
  lemma ALostThread(s: Kernel, init: map<Sem, nat>, locks: set<Lock>) returns (run: seq<Kernel>)
    requires Starts(s, init, locks)
    ensures IsRun(run, init, locks) && run[0] == s && Lost(run[|run| - 1], 0)
  {
    hide Inv, Steps, Lost, Formed, Closed, PcKnown, Enabled, Apply, CanStep, Starts;
    InitialInv(s, init, locks);
    InvReady(s, init);
    Single(s);
    MakesOne(s, init, locks);
    Append([s], CallNew(1), init);
    var s1 := Apply(s, CallNew(1));
    InvReady(s1, init);
    ForksIt(s1);
    Append([s] + [s1], CallFork(1), init);
    var s2 := Apply(s1, CallFork(1));
    InvReady(s2, init);
    TickPasses(s2);
    Append([s] + [s1] + [s2], Continue, init);
    var s3 := Apply(s2, Continue);
    var rest := OvertakenBy(s3, 1, init);
    run := [s] + [s1] + [s2] + [s3] + rest[1..];
    Chain([s] + [s1] + [s2] + [s3], rest);
    Whole(run, init, locks);
  }

  lemma Whole(run: seq<Kernel>, init: map<Sem, nat>, locks: set<Lock>)
    requires run != [] && Steps(run) && Starts(run[0], init, locks)
    ensures IsRun(run, init, locks)
  {
    hide CanStep, Starts;
  }
}
