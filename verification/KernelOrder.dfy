/** Single pieces of steps keep interrupt levels, the balance of every semaphore, its wakeups,
    the holders of locks, and the order of the ready list. */
module KernelOrder {
  import opened Common
  import opened Kernels
  import opened KernelPlaces
  import opened KernelInvariants
  import opened KernelSteps

  /** The part of the invariant this file is about. */
  ghost predicate Rest(s: Kernel, init: map<Sem, nat>)
    requires Formed(s)
  {
    Level(s) && Counted(s, init) && NoLostWakeup(s) && Locks(s) && Fifo(s)
  }

  // ---------------------------------------------------------------- frames

  /** No thread changes its part in a lock or its standing with a semaphore, except that it
      may stop minding who owns a lock. */
  ghost predicate SameRoles(s: Kernel, s': Kernel) {
    && (forall t :: t in s.threads ==> t in s'.threads)
    && (forall t :: t in s'.threads ==> SameRole(if t in s.threads then s.threads[t] else Tcb(Unborn, JustCreated), s'.threads[t]))
  }

  ghost predicate SameRole(a: Tcb, b: Tcb) {
    && PartOf(b.pc) == PartOf(a.pc) && (Avoids(b.pc) == Avoids(a.pc) || Avoids(b.pc).None?)
    && (forall m :: IsWoken(a, m) == IsWoken(b, m))
  }

  ghost predicate SameSemaphores(s: Kernel, s': Kernel) {
    && s'.value == s.value && s'.log.ps == s.log.ps && s'.log.vs == s.log.vs
    && s'.owner == s.owner && s'.log.holder == s.log.holder
    && (forall m :: QueueAt(s', SemQueue(m)) == QueueAt(s, SemQueue(m)))
  }

  lemma WokenFrame(s: Kernel, s': Kernel)
    requires NoLostWakeup(s) && SameRoles(s, s') && SameSemaphores(s, s')
    ensures NoLostWakeup(s')
  {
    forall m
      ensures Woken(s', m) == Woken(s, m)
    {
      assert forall t :: t in Woken(s', m) <==> t in Woken(s, m);
    }
  }

  lemma LocksFrame(s: Kernel, s': Kernel)
    requires Formed(s) && Formed(s') && Locks(s) && SameRoles(s, s') && SameSemaphores(s, s')
    ensures Locks(s')
  {
    forall l | l in s'.owner
      ensures Held(s', l)
    {
      assert Held(s, l);
      assert forall t: Tid :: Holds(s', l, t) <==> Holds(s, l, t);
    }
  }

  lemma RestFrame(s: Kernel, s': Kernel, init: map<Sem, nat>)
    requires Formed(s) && Formed(s') && Rest(s, init) && SameRoles(s, s') && SameSemaphores(s, s')
    requires Level(s') && Fifo(s')
    ensures Rest(s', init)
  {
    WokenFrame(s, s');
    LocksFrame(s, s');
    hide NoLostWakeup, Locks, SameRoles;
  }

  // ---------------------------------------------------------------- moving on

  lemma GotoRest(s: Kernel, pc: Pc, init: map<Sem, nat>)
    requires Formed(s) && Formed(Goto(s, pc)) && Rest(s.(level := false), init) && !Me(s).pc.PWait? && !pc.PWait?
    requires s.level ==> MayBeOn(Tcb(pc, Running))
    requires PartOf(pc) == PartOf(Me(s).pc) && (Avoids(pc).None? || Avoids(pc) == Avoids(Me(s).pc))
    ensures Rest(Goto(s, pc), init)
  {
    assert SameRoles(s.(level := false), Goto(s, pc));
    RestFrame(s.(level := false), Goto(s, pc), init);
  }

  lemma OffRest(s: Kernel, init: map<Sem, nat>)
    requires Formed(s) && Rest(s, init)
    ensures Formed(s.(level := false)) && Rest(s.(level := false), init)
  {
    var s' := s.(level := false);
    assert SameRoles(s, s');
    RestFrame(s, s', init);
  }

  lemma FlagRest(s: Kernel, flag: bool, init: map<Sem, nat>)
    requires Formed(s) && Rest(s, init)
    ensures Formed(s.(yieldOnReturn := flag)) && Rest(s.(yieldOnReturn := flag), init)
  {
    var s' := s.(yieldOnReturn := flag);
    assert SameRoles(s, s');
    RestFrame(s, s', init);
  }

  lemma OnRest(s: Kernel, init: map<Sem, nat>)
    requires Formed(s) && Rest(s, init) && MayBeOn(Me(s))
    ensures Formed(s.(level := true)) && Rest(s.(level := true), init)
  {
    var s' := s.(level := true);
    assert SameRoles(s, s');
    RestFrame(s, s', init);
  }

  lemma SwitchRest(s: Kernel, init: map<Sem, nat>)
    requires Formed(s) && Rest(s, init) && s.ready != [] && s.ready[0] in s.threads && !s.level
    requires s.threads[s.ready[0]].status == Ready
    ensures Formed(Switch(s)) && Rest(Switch(s), init)
  {
    var s' := Switch(s);
    assert SameRoles(s, s');
    RestFrame(s, s', init);
  }

  /** Another thread, or a new one, changes without a change of role. */
  lemma PutRest(s: Kernel, t: Tid, tcb: Tcb, doomed: Option<Tid>, init: map<Sem, nat>)
    requires Formed(s) && Rest(s, init) && (t == s.current ==> !s.level)
    requires SameRole(if t in s.threads then s.threads[t] else Tcb(Unborn, JustCreated), tcb)
    ensures var s' := s.(threads := s.threads[t := tcb], doomed := doomed);
            Formed(s') && Rest(s', init)
  {
    var s' := s.(threads := s.threads[t := tcb], doomed := doomed);
    assert SameRoles(s, s');
    hide SameRoles;
    RestFrame(s, s', init);
  }

  lemma BuryRest(s: Kernel, init: map<Sem, nat>)
    requires Formed(s) && Rest(s, init) && Me(s).status == Running && Threads(s)
    ensures Formed(Bury(s)) && Rest(Bury(s), init)
  {
    if s.doomed.Some? {
      var t := s.doomed.value;
      assert t in s.threads && s.threads[t].pc == Finished && t != s.current;
      hide Threads, Formed, Rest;
      PutRest(s, t, Tcb(Gone, Destroyed), None, init);
    }
  }

  lemma RequeueRest(s: Kernel, t: Tid, init: map<Sem, nat>)
    requires Formed(s) && Rest(s, init) && t in s.threads && !s.level
    requires s.threads[t].status != Blocked || !s.threads[t].pc.PWait?
    ensures Formed(MakeReady(s, t)) && Rest(MakeReady(s, t), init)
  {
    var s' := MakeReady(s, t);
    assert SameRoles(s, s');
    RestFrame(s, s', init);
  }

  lemma WakeRoles(s: Kernel, c: Cond)
    requires s.current in s.threads && Me(s).status == Running
    requires var ts := QueueAt(s, CondQueue(c)); ts != [] && ts[0] in s.threads && IsWaiting(s, ts[0], CondQueue(c))
    ensures SameRoles(s, Wake(s, CondQueue(c)))
  {
  }

  lemma WakeFrame(s: Kernel, c: Cond)
    requires Formed(s) && Level(s) && Fifo(s) && Me(s).status == Running
    requires var ts := QueueAt(s, CondQueue(c)); ts != [] && ts[0] in s.threads && ts[0] != s.current
    ensures var s' := Wake(s, CondQueue(c));
            Formed(s') && SameSemaphores(s, s') && Level(s') && Fifo(s')
  {
  }

  lemma WakeCondRest(s: Kernel, c: Cond, init: map<Sem, nat>)
    requires Formed(s) && Rest(s, init) && Threads(s) && Lists(s)
    requires Me(s).status == Running
    ensures QueueAt(s, CondQueue(c)) != [] ==> QueueAt(s, CondQueue(c))[0] in s.threads
    ensures Formed(Wake(s, CondQueue(c))) && Rest(Wake(s, CondQueue(c)), init)
  {
    hide Formed, Lists, Counted, NoLostWakeup, Locks, SameRoles, SameSemaphores, Level, QueueAt;
    var q := CondQueue(c);
    if QueueAt(s, q) != [] {
      HeadOf(s, q);
      WakeRoles(s, c);
      WakeFrame(s, c);
      hide Wake;
      RestFrame(s, Wake(s, q), init);
    }
  }

  // ---------------------------------------------------------------- P

  /** A thread leaves the loop of P with a unit. */
  lemma TakeWoken(s: Kernel, m: Sem, pc: Pc)
    requires Formed(s) && NoLostWakeup(s) && m in s.value && s.value[m] > 0
    requires Me(s).status == Running && !pc.PWait?
    requires Me(s).pc.PWait? ==> Me(s).pc.m == m
    ensures NoLostWakeup(Goto(Take1(s, m), pc))
  {
    var s' := Goto(Take1(s, m), pc);
    forall n
      ensures Woken(s', n) == Woken(s, n) - {s.current}
      ensures n != m ==> Woken(s', n) == Woken(s, n)
    {
      assert forall t :: t in Woken(s', n) <==> t in Woken(s, n) && t != s.current;
    }
    hide Woken;
    assert forall n :: QueueAt(s', SemQueue(n)) == QueueAt(s, SemQueue(n));
  }

  lemma TakeLocks(s: Kernel, m: Sem, pc: Pc)
    requires Formed(s) && Locks(s) && m in s.value && s.value[m] > 0 && Formed(Goto(Take1(s, m), pc))
    requires PartOf(Me(s).pc).None?
    requires PartOf(pc) == (if m.OfLock? then Some(m.l) else None) == Avoids(pc)
    ensures Locks(Goto(Take1(s, m), pc))
  {
    var s' := Goto(Take1(s, m), pc);
    forall l | l in s'.owner
      ensures Held(s', l)
    {
      assert Held(s, l);
      assert forall t: Tid :: Holds(s', l, t) <==> if m == OfLock(l) then t == s.current else Holds(s, l, t);
    }
  }

  lemma TakeParts(s: Kernel, m: Sem, was: bool, k: Cont)
    requires Formed(s) && PcOk(s, Me(s).pc) && m in s.value && s.value[m] > 0
    requires Me(s).pc == PTest(m, was, k) || Me(s).pc == PWait(m, was, k)
    ensures var pc := if was then Tick(k) else After(k);
            && PartOf(pc) == (if m.OfLock? then Some(m.l) else None) == Avoids(pc)
            && !pc.PWait? && PartOf(Me(s).pc).None?
            && Formed(Goto(Take1(s, m), pc))
  {
  }

  lemma TakeCounted(s: Kernel, m: Sem, pc: Pc, init: map<Sem, nat>)
    requires Formed(s) && Counted(s, init) && m in s.value && s.value[m] > 0 && Formed(Goto(Take1(s, m), pc))
    ensures Counted(Goto(Take1(s, m), pc), init)
  {
  }

  lemma Locked(s: Kernel, l: Lock)
    requires Formed(s) && Locks(s) && l in s.owner
    ensures Held(s, l)
  {
  }

  lemma TakeRest(s: Kernel, m: Sem, was: bool, k: Cont, init: map<Sem, nat>)
    requires Formed(s) && Rest(s, init) && Me(s).status == Running && PcOk(s, Me(s).pc)
    requires Me(s).pc == PTest(m, was, k) || Me(s).pc == PWait(m, was, k)
    requires m in s.value && s.value[m] > 0
    ensures var s' := Return(Take1(s, m), was, k); Formed(s') && Rest(s', init)
  {
    var pc := if was then Tick(k) else After(k);
    TakeParts(s, m, was, k);
    hide PcOk, PartOf, Avoids, After;
    TakeWoken(s, m, pc);
    TakeLocks(s, m, pc);
    TakeCounted(s, m, pc, init);
    hide NoLostWakeup, Locks, Counted, Formed;
  }

  /** A thread joins the queue of a semaphore with no units, or of a condition. */
  lemma BlockWoken(s: Kernel, q: Queue, pc: Pc)
    requires Formed(s) && NoLostWakeup(s)
    requires q.SemQueue? ==> q.m in s.value && s.value[q.m] == 0
    requires Me(s).pc.PWait? ==> q == SemQueue(Me(s).pc.m)
    ensures NoLostWakeup(Block(s, q, pc))
  {
    var s' := Block(s, q, pc);
    forall n | SemQueue(n) != q
      ensures Woken(s', n) == Woken(s, n) && QueueAt(s', SemQueue(n)) == QueueAt(s, SemQueue(n))
    {
      assert forall t :: t in Woken(s', n) <==> t in Woken(s, n);
    }
  }

  lemma BlockLocks(s: Kernel, q: Queue, pc: Pc)
    requires Formed(s) && Locks(s) && Formed(Block(s, q, pc))
    requires PartOf(pc) == PartOf(Me(s).pc) && Avoids(pc) == Avoids(Me(s).pc)
    ensures Locks(Block(s, q, pc))
  {
    var s' := Block(s, q, pc);
    forall l | l in s'.owner
      ensures Held(s', l)
    {
      assert Held(s, l);
      assert forall t: Tid :: Holds(s', l, t) <==> Holds(s, l, t);
    }
  }

  lemma BlockRest(s: Kernel, q: Queue, pc: Pc, init: map<Sem, nat>)
    requires Formed(s) && Rest(s, init) && !s.level
    requires q.SemQueue? ==> q.m in s.value && s.value[q.m] == 0
    requires Me(s).pc.PWait? ==> q == SemQueue(Me(s).pc.m)
    requires PartOf(pc) == PartOf(Me(s).pc) && Avoids(pc) == Avoids(Me(s).pc)
    ensures Formed(Block(s, q, pc)) && Rest(Block(s, q, pc), init)
  {
    BlockWoken(s, q, pc);
    BlockLocks(s, q, pc);
    hide NoLostWakeup, Locks;
  }

  lemma TestRest(s: Kernel, m: Sem, was: bool, k: Cont, init: map<Sem, nat>)
    requires Formed(s) && Rest(s, init) && Me(s).status == Running && PcOk(s, Me(s).pc) && !s.level
    requires Me(s).pc == PTest(m, was, k) || Me(s).pc == PWait(m, was, k)
    ensures m in s.value && Formed(TestValue(s, m, was, k)) && Rest(TestValue(s, m, was, k), init)
  {
    hide Rest;
    if s.value[m] == 0 {
      BlockRest(s, SemQueue(m), PWait(m, was, k), init);
    } else {
      TakeRest(s, m, was, k, init);
    }
  }

  // ---------------------------------------------------------------- V

  /** V moves the first thread of the queue among the woken ones. */
  lemma GiveMoves(s: Kernel, m: Sem, n: Sem)
    requires Formed(s) && m in s.value && QueueAt(s, SemQueue(m)) != []
    requires IsWaiting(s, QueueAt(s, SemQueue(m))[0], SemQueue(m))
    ensures var head := QueueAt(s, SemQueue(m))[0];
            && head !in Woken(s, n)
            && Woken(Release1(s, m), n) == if n == m then Woken(s, n) + {head} else Woken(s, n)
  {
    hide Formed;
    var head := QueueAt(s, SemQueue(m))[0];
    assert forall t :: t in Woken(Release1(s, m), n) <==> t in Woken(s, n) || (n == m && t == head);
  }

  /** V wakes the first thread of the queue and adds a unit. */
  lemma GiveWoken(s: Kernel, m: Sem)
    requires Formed(s) && Lists(s) && NoLostWakeup(s) && m in s.value
    ensures QueueAt(s, SemQueue(m)) != [] ==> QueueAt(s, SemQueue(m))[0] in s.threads
    ensures NoLostWakeup(Release1(s, m))
  {
    hide Woken, Lists;
    var q := SemQueue(m);
    if QueueAt(s, q) != [] {
      HeadOf(s, q);
      forall n {
        GiveMoves(s, m, n);
      }
    } else {
      forall n {
        GiveNothing(s, m, n);
      }
    }
    hide Formed;
    assert forall n :: n != m ==> QueueAt(Release1(s, m), SemQueue(n)) == QueueAt(s, SemQueue(n));
  }

  lemma GiveNothing(s: Kernel, m: Sem, n: Sem)
    requires Formed(s) && m in s.value && QueueAt(s, SemQueue(m)) == []
    ensures Woken(Release1(s, m), n) == Woken(s, n)
  {
    hide Formed;
  }

  lemma KeepHeld(s: Kernel, s': Kernel, l: Lock)
    requires Formed(s) && Formed(s') && l in s.owner && l in s'.owner && Held(s, l)
    requires s'.owner[l] == s.owner[l] && s'.log.holder[l] == s.log.holder[l] && s'.value[OfLock(l)] == s.value[OfLock(l)]
    requires s'.threads.Keys == s.threads.Keys
    requires forall t :: t in s.threads ==> (PartOf(s'.threads[t].pc) == Some(l) <==> PartOf(s.threads[t].pc) == Some(l))
    requires forall t :: t in s.threads && Avoids(s'.threads[t].pc) == Some(l) ==> Avoids(s.threads[t].pc) == Some(l)
    ensures Held(s', l)
  {
    hide Formed, PartOf, Avoids;
    assert forall t: Tid :: Holds(s', l, t) <==> Holds(s, l, t);
  }

  lemma EndHeld(s: Kernel, s': Kernel, l: Lock)
    requires Formed(s) && Formed(s') && l in s.owner && s'.owner == s.owner && Held(s, l)
    requires PartOf(Me(s).pc) == Some(l) == Avoids(Me(s).pc)
    requires s'.log.holder[l].None? && s'.value[OfLock(l)] == s.value[OfLock(l)] + 1
    requires s'.threads.Keys == s.threads.Keys && PartOf(s'.threads[s.current].pc).None?
    requires forall t :: t in s.threads && t != s.current ==> s'.threads[t].pc == s.threads[t].pc
    ensures Held(s', l)
  {
    assert s.current in s.threads;
    assert Holds(s, l, s.current);
    hide Formed, PartOf, Avoids;
    assert forall t: Tid :: !Holds(s', l, t);
  }

  lemma GiveFacts(s: Kernel, m: Sem, pc: Pc)
    requires Formed(s) && m in s.value
    requires QueueAt(s, SemQueue(m)) != [] ==> QueueAt(s, SemQueue(m))[0] in s.threads
    ensures var s' := Goto(Release1(s, m), pc);
            && s'.owner == s.owner && s'.value == s.value[m := s.value[m] + 1]
            && s'.log.holder == (if m.OfLock? then s.log.holder[m.l := None] else s.log.holder)
            && s'.threads.Keys == s.threads.Keys
            && (forall t :: t in s.threads ==> s'.threads[t].pc == if t == s.current then pc else s.threads[t].pc)
  {
    Known(s, m);
    WakeKeeps(s, SemQueue(m));
    hide Wake, QueueAt, Formed;
  }

  lemma PartAvoids(s: Kernel)
    requires Formed(s)
    ensures s.current in s.threads && (PartOf(Me(s).pc).Some? ==> Avoids(Me(s).pc) == PartOf(Me(s).pc))
  {
  }

  /** The running thread's part in the lock ends with V. */
  lemma GiveLocks(s: Kernel, m: Sem, pc: Pc)
    requires Formed(s) && Locks(s) && m in s.value
    requires QueueAt(s, SemQueue(m)) != [] ==> QueueAt(s, SemQueue(m))[0] in s.threads
    requires Formed(Goto(Release1(s, m), pc)) && PartOf(pc).None?
    requires PartOf(Me(s).pc) == if m.OfLock? then Some(m.l) else None
    requires Avoids(pc).Some? ==> Avoids(pc) == Avoids(Me(s).pc)
    ensures Locks(Goto(Release1(s, m), pc))
  {
    hide Release1, Goto, QueueAt, Formed, PartOf, Avoids, Held;
    GiveFacts(s, m, pc);
    PartAvoids(s);
    var s' := Goto(Release1(s, m), pc);
    forall l | l in s'.owner
      ensures Held(s', l)
    {
      assert Held(s, l);
      if m == OfLock(l) {
        EndHeld(s, s', l);
      } else {
        KeepHeld(s, s', l);
      }
    }
  }

  /** A handler's V on a semaphore that belongs to no lock. */
  lemma DeviceLocks(s: Kernel, n: nat)
    requires Formed(s) && Locks(s) && Plain(n) in s.value
    requires QueueAt(s, SemQueue(Plain(n))) != [] ==> QueueAt(s, SemQueue(Plain(n)))[0] in s.threads
    requires Formed(Release1(s, Plain(n)))
    ensures Locks(Release1(s, Plain(n)))
  {
    hide Wake, QueueAt, Held, PartOf, Avoids;
    WakeKeeps(s, SemQueue(Plain(n)));
    var s' := Release1(s, Plain(n));
    forall l | l in s'.owner
      ensures Held(s', l)
    {
      assert Held(s, l);
      KeepHeld(s, s', l);
    }
  }

  // ---------------------------------------------------------------- owners

  /** Acquire marks its caller as the owner. */
  lemma OwnLocks(s: Kernel, l: Lock)
    requires Formed(s) && Locks(s) && Me(s).pc == SetOwner(l) && l in s.owner
    requires Formed(Goto(s.(owner := s.owner[l := Some(s.current)]), Client))
    ensures Locks(Goto(s.(owner := s.owner[l := Some(s.current)]), Client))
  {
    var s' := Goto(s.(owner := s.owner[l := Some(s.current)]), Client);
    assert Held(s, l);
    assert Holds(s, l, s.current);
    forall j | j in s'.owner
      ensures Held(s', j)
    {
      assert Held(s, j);
      assert forall t: Tid :: Holds(s', j, t) <==> Holds(s, j, t);
    }
  }

  lemma CurrentExists(s: Kernel)
    requires Formed(s)
    ensures s.current in s.threads
  {
  }

  lemma DisownHeld(s: Kernel, l: Lock, k: Cont)
    requires Formed(s) && Me(s).pc == Client && l in s.owner && Held(s, l) && s.owner[l] == Some(s.current)
    requires Formed(Goto(s.(owner := s.owner[l := None]), CallV(l, k)))
    ensures Held(Goto(s.(owner := s.owner[l := None]), CallV(l, k)), l)
  {
    var s' := Goto(s.(owner := s.owner[l := None]), CallV(l, k));
    assert s.current in s.threads;
    assert Holds(s, l, s.current);
    hide Formed;
    assert forall t: Tid :: Holds(s', l, t) <==> t == s.current;
  }

  /** Release clears the owner, but its caller still has the semaphore. */
  lemma DisownLocks(s: Kernel, l: Lock, k: Cont)
    requires Formed(s) && Locks(s) && Me(s).pc == Client && l in s.owner && s.owner[l] == Some(s.current)
    requires Formed(Goto(s.(owner := s.owner[l := None]), CallV(l, k)))
    ensures Locks(Goto(s.(owner := s.owner[l := None]), CallV(l, k)))
  {
    hide Held, Formed;
    CurrentExists(s);
    var s' := Goto(s.(owner := s.owner[l := None]), CallV(l, k));
    forall j | j in s'.owner
      ensures Held(s', j)
    {
      Locked(s, j);
      if j == l { DisownHeld(s, l, k); } else { KeepHeld(s, s', j); }
    }
  }
}
