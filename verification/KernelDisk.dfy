/** SynchDisk on the kernel itself: threads read and write sectors while the kernel runs them in
    any interleaving, other threads do what they like, and the disk interrupts. */
module KernelDisk {
  import opened Common
  import opened Kernels
  import opened KernelClients
  import P = SynchDiskProtocol

  /** The lock and the semaphore of the SynchDisk. */
  const LOCK: Lock := 0
  const DONE := Plain(0)
  const OURS := {OfLock(LOCK), DONE}

  /** Where a thread is: elsewhere, at the call of Acquire in ReadSector or WriteSector, or further
      on in it; and what its last read brought. */
  datatype Stage = Elsewhere | Wants(r: P.Request) | Inside(phase: P.Phase)

  datatype Place = Place(stage: Stage, got: Option<P.Data>)

  /** The raw disk, and a record of what it was asked and did. */
  datatype Raw = Raw(active: bool, sectors: seq<P.Data>, requests: seq<P.Request>, interrupts: nat)

  function CallOf(x: Place): Option<(Call, Place)> {
    match x.stage
    case Wants(r) => Some((Acquire(LOCK), x.(stage := Inside(P.Locked(r)))))
    case Inside(Waiting(r, n)) => Some((Call.P(DONE.n), x.(stage := Inside(P.Served(r, n)))))
    case Inside(Served(_, _)) => Some((Release(LOCK), x.(stage := Elsewhere)))
    case _ => None
  }

  /** One request on the raw disk: the transfer happens at once, the interrupt comes later. */
  function Issued(raw: Raw, r: P.Request): Raw {
    Raw(true, P.Transfer(raw.sectors, r), raw.requests + [r], raw.interrupts)
  }

  predicate Works(x: Place, raw: Raw, next: Place, data: Raw) {
    match x.stage
    case Elsewhere => next.stage.Wants? && next.stage.r.sector < |raw.sectors| && next.got == x.got && data == raw
    case Inside(Locked(r)) =>
      && data == Issued(raw, r)
      && next == Place(Inside(P.Waiting(r, |raw.requests|)),
                       if r.Read? && r.sector < |raw.sectors| then Some(raw.sectors[r.sector]) else x.got)
    case _ => false
  }

  /** Any thread may fork another that may use the disk. */
  predicate Forking(x: Place, raw: Raw, child: Place, next: Place, data: Raw) {
    x.stage.Elsewhere? && child == Place(Elsewhere, None) && next == x && data == raw
  }

  /** HandleInterrupt and RequestDone. */
  predicate Interrupts(raw: Raw, n: nat, data: Raw) {
    n == DONE.n && raw.active && data == raw.(active := false, interrupts := raw.interrupts + 1)
  }

  ghost function SynchDisk(): Code<Place, Raw> {
    Code(OURS, CallOf, Works, (x, raw, u, child, next, data) => Forking(x, raw, child, next, data), Interrupts)
  }

  // ---------------------------------------------------------------- over atomic ones

  ghost predicate Equipped(a: Atomic<Place, Raw>) {
    DONE in a.value && LOCK in a.holder
  }

  ghost predicate ArePhases(locals: map<Tid, Place>, phases: map<Tid, P.Phase>) {
    && (forall t :: t in phases <==> t in locals && locals[t].stage.Inside?)
    && (forall t :: t in phases ==> phases[t] == locals[t].stage.phase)
  }

  lemma PhasesExist(locals: map<Tid, Place>)
    ensures exists phases :: ArePhases(locals, phases)
  {
    var inside := set t | t in locals && locals[t].stage.Inside?;
    var phases := Tabulated(inside, t requires t in inside => locals[t].stage.phase);
    assert ArePhases(locals, phases);
  }

  ghost function Phases(locals: map<Tid, Place>): (phases: map<Tid, P.Phase>)
    ensures ArePhases(locals, phases)
  {
    PhasesExist(locals);
    var phases :| ArePhases(locals, phases);
    phases
  }

  ghost predicate AreBuffers(locals: map<Tid, Place>, buffers: map<Tid, P.Data>) {
    && (forall t :: t in buffers <==> t in locals && locals[t].got.Some?)
    && (forall t :: t in buffers ==> buffers[t] == locals[t].got.value)
  }

  lemma BuffersExist(locals: map<Tid, Place>)
    ensures exists buffers :: AreBuffers(locals, buffers)
  {
    var got := set t | t in locals && locals[t].got.Some?;
    var buffers := Tabulated(got, t requires t in got => locals[t].got.value);
    assert AreBuffers(locals, buffers);
  }

  ghost function Buffers(locals: map<Tid, Place>): (buffers: map<Tid, P.Data>)
    ensures AreBuffers(locals, buffers)
  {
    BuffersExist(locals);
    var buffers :| AreBuffers(locals, buffers);
    buffers
  }

  /** A thread moves. */
  lemma PhasesAfter(locals: map<Tid, Place>, t: Tid, x: Place)
    ensures Phases(locals[t := x]) == if x.stage.Inside? then Phases(locals)[t := x.stage.phase] else Phases(locals) - {t}
    ensures t in locals && locals[t].stage.Inside? ==> t in Phases(locals) && Phases(locals)[t] == locals[t].stage.phase
    ensures t in Phases(locals) ==> t in locals && locals[t].stage.Inside?
  {
  }

  lemma BuffersAfter(locals: map<Tid, Place>, t: Tid, x: Place)
    ensures Buffers(locals[t := x]) == if x.got.Some? then Buffers(locals)[t := x.got.value] else Buffers(locals) - {t}
    ensures t in locals && locals[t].got.Some? ==> t in Buffers(locals) && Buffers(locals)[t] == locals[t].got.value
    ensures t in Buffers(locals) ==> t in locals && locals[t].got.Some?
  {
  }

  ghost function View(a: Atomic<Place, Raw>): P.World
    requires Equipped(a)
  {
    P.World(Phases(a.locals), a.holder[LOCK], a.value[DONE], a.shared.active, a.shared.sectors, Buffers(a.locals),
            a.shared.requests, a.shared.interrupts)
  }

  /** A thread waits only for sectors that exist; the disk keeps its size. */
  ghost predicate Fits(a: Atomic<Place, Raw>) {
    forall t :: t in a.locals && a.locals[t].stage.Wants? ==> a.locals[t].stage.r.sector < |a.shared.sectors|
  }

  /** The step of the protocol that an event is, if it is one. */
  ghost function StepOf(a: Atomic<Place, Raw>, e: Event<Place, Raw>): Option<P.Step> {
    match e
    case Does(t, _, _) => if t in a.locals && a.locals[t].stage.Inside? then Some(P.Issue(t)) else None
    case Calls(t) =>
      if t !in a.locals then None
      else (match a.locals[t].stage
            case Wants(r) => Some(P.Acquire(t, r))
            case Inside(Waiting(_, _)) => Some(P.TakeP(t))
            case Inside(Served(_, _)) => Some(P.Release(t))
            case _ => None)
    case Forks(_, _, _, _, _) => None
    case Fires(_, _) => Some(P.Interrupt)
  }

  lemma EventFollows(a: Atomic<Place, Raw>, e: Event<Place, Raw>)
    requires Equipped(a) && Fits(a) && EventEnabled(SynchDisk(), a, e)
    ensures var a' := EventNext(SynchDisk(), a, e);
            && Equipped(a') && Fits(a')
            && (match StepOf(a, e)
                case None => View(a') == View(a)
                case Some(s) => P.Enabled(View(a), s) && View(a') == P.Next(View(a), s))
  {
    match e
    case Does(_, _, _) => DoesFollows(a, e);
    case Calls(_) => CallsFollows(a, e);
    case Forks(_, _, _, _, _) => ForksFollows(a, e);
    case Fires(_, _) =>
  }

  lemma DoesFollows(a: Atomic<Place, Raw>, e: Event<Place, Raw>)
    requires Equipped(a) && Fits(a) && EventEnabled(SynchDisk(), a, e) && e.Does?
    ensures var a' := EventNext(SynchDisk(), a, e);
            && Equipped(a') && Fits(a')
            && (match StepOf(a, e)
                case None => View(a') == View(a)
                case Some(s) => P.Enabled(View(a), s) && View(a') == P.Next(View(a), s))
  {
    hide ArePhases, AreBuffers;
    PhasesAfter(a.locals, e.t, e.next);
    BuffersAfter(a.locals, e.t, e.next);
    var phases, buffers := Phases(a.locals), Buffers(a.locals);
    if a.locals[e.t].stage.Elsewhere? {
      assert phases - {e.t} == phases;
    }
    if e.next.got == a.locals[e.t].got {
      assert (if e.next.got.Some? then buffers[e.t := e.next.got.value] else buffers - {e.t}) == buffers;
    }
  }

  lemma CallsFollows(a: Atomic<Place, Raw>, e: Event<Place, Raw>)
    requires Equipped(a) && Fits(a) && EventEnabled(SynchDisk(), a, e) && e.Calls?
    ensures var a' := EventNext(SynchDisk(), a, e);
            && Equipped(a') && Fits(a')
            && (match StepOf(a, e)
                case None => View(a') == View(a)
                case Some(s) => P.Enabled(View(a), s) && View(a') == P.Next(View(a), s))
  {
    hide ArePhases, AreBuffers;
    var x, buffers := CallOf(a.locals[e.t]).value.1, Buffers(a.locals);
    PhasesAfter(a.locals, e.t, x);
    BuffersAfter(a.locals, e.t, x);
    assert (if x.got.Some? then buffers[e.t := x.got.value] else buffers - {e.t}) == buffers;
  }

  lemma ForksFollows(a: Atomic<Place, Raw>, e: Event<Place, Raw>)
    requires Equipped(a) && Fits(a) && EventEnabled(SynchDisk(), a, e) && e.Forks?
    ensures var a' := EventNext(SynchDisk(), a, e);
            Equipped(a') && Fits(a') && View(a') == View(a)
  {
    hide ArePhases, AreBuffers;
    assert a.locals[e.t := e.next] == a.locals;
    PhasesAfter(a.locals, e.u, e.child);
    BuffersAfter(a.locals, e.u, e.child);
    assert Phases(a.locals) - {e.u} == Phases(a.locals) && Buffers(a.locals) - {e.u} == Buffers(a.locals);
  }

  lemma {:induction false} AtomicFollows(atoms: seq<Atomic<Place, Raw>>, events: seq<Event<Place, Raw>>, sectors: seq<P.Data>)
    returns (run: seq<P.World>, steps: seq<P.Step>)
    requires IsAtomicRun(SynchDisk(), atoms, events)
    requires Equipped(atoms[0]) && Fits(atoms[0]) && View(atoms[0]) == P.Init(sectors)
    ensures |atoms| == |events| + 1 && Equipped(atoms[|events|]) && Fits(atoms[|events|])
    ensures P.IsRun(run, steps, sectors) && |run| == |steps| + 1 && run[|steps|] == View(atoms[|events|])
    decreases |events|
  {
    hide P.Enabled, P.Next, Equipped, Fits, View, EventEnabled, EventNext, StepOf;
    if events == [] {
      run, steps := [P.Init(sectors)], [];
    } else {
      var n := |events| - 1;
      run, steps := AtomicFollows(atoms[..n + 1], events[..n], sectors);
      EventFollows(atoms[n], events[n]);
      var s := StepOf(atoms[n], events[n]);
      if s.Some? {
        run, steps := run + [View(atoms[n + 1])], steps + [s.value];
      }
    }
  }

  // ---------------------------------------------------------------- on the kernel

  /** Nobody has used the disk yet, and the semaphore is at 0. */
  ghost predicate Fresh(w: World<Place, Raw>, init: map<Sem, nat>) {
    && DONE in init && init[DONE] == 0 && w.shared == Raw(false, w.shared.sectors, [], 0)
    && forall t :: t in w.locals ==> w.locals[t] == At(Place(Elsewhere, None))
  }

  lemma FreshView(w: World<Place, Raw>, init: map<Sem, nat>, locks: set<Lock>)
    requires StartsAs(SynchDisk(), w, init, locks) && Fresh(w, init)
    ensures Installed(w.k, OURS)
    ensures var a := Abs(SynchDisk(), w);
            Equipped(a) && Fits(a) && View(a) == P.Init(w.shared.sectors)
  {
    assert OfLock(LOCK) in init;
  }

  /** SynchDisk on the kernel refines the protocol over an atomic lock and semaphore. */
  lemma RunFollows(run: seq<World<Place, Raw>>, steps: seq<Step<Place, Raw>>, init: map<Sem, nat>, locks: set<Lock>, k: nat)
    returns (disk: seq<P.World>, moves: seq<P.Step>)
    requires IsRun(SynchDisk(), run, steps, init, locks) && Fresh(run[0], init) && k < |run|
    ensures Installed(run[k].k, OURS)
    ensures P.IsRun(disk, moves, run[0].shared.sectors) && |disk| == |moves| + 1
    ensures var a := Abs(SynchDisk(), run[k]);
            Equipped(a) && disk[|moves|] == View(a)
  {
    FreshView(run[0], init, locks);
    hide Fresh, View, Abs, P.IsRun, IsAtomicRun, Equipped, Fits;
    var atoms, events := KernelClients.RunFollows(SynchDisk(), run, steps, init, locks, k);
    disk, moves := AtomicFollows(atoms, events, run[0].shared.sectors);
  }

  /** The threads whose request is issued and whose P has not taken its unit. */
  ghost function Outstanding(w: World<Place, Raw>): set<Tid> {
    set t | t in Places(w) && Places(w)[t].stage.Inside? && Places(w)[t].stage.phase.Waiting?
  }

  /** In every interleaving the kernel can produce: the semaphore's value plus the busy disk is
      the number of threads between issuing a request and taking a unit for it, at most one. */
  lemma OneOutstanding(run: seq<World<Place, Raw>>, steps: seq<Step<Place, Raw>>, init: map<Sem, nat>, locks: set<Lock>, k: nat)
    requires IsRun(SynchDisk(), run, steps, init, locks) && Fresh(run[0], init) && k < |run|
    ensures DONE in run[k].k.value
    ensures run[k].k.value[DONE] + Unit(run[k].shared.active) == |Outstanding(run[k])| <= 1
  {
    hide IsRun, Fresh, P.IsRun;
    var disk, moves := RunFollows(run, steps, init, locks, k);
    P.OneOutstanding(disk, moves, run[0].shared.sectors, |moves|);
    assert P.WaitingThreads(disk[|moves|]) == Outstanding(run[k]);
  }

  /** What the protocol says of the running thread, in its own code. */
  ghost predicate Agrees(w: World<Place, Raw>, v: P.World)
    requires w.k.current in w.locals
  {
    var x, me := MyPlace(w), w.k.current;
    && v.active == w.shared.active && v.sectors == w.shared.sectors
    && v.requests == w.shared.requests && v.interrupts == w.shared.interrupts
    && (me in v.phase <==> x.stage.Inside?) && (x.stage.Inside? ==> v.phase[me] == x.stage.phase)
    && (me in v.buffer <==> x.got.Some?) && (x.got.Some? ==> v.buffer[me] == x.got.value)
    && LOCK in w.k.log.holder && v.lock == w.k.log.holder[LOCK]
  }

  lemma MyView(run: seq<World<Place, Raw>>, steps: seq<Step<Place, Raw>>, init: map<Sem, nat>, locks: set<Lock>, k: nat)
    returns (v: P.World)
    requires IsRun(SynchDisk(), run, steps, init, locks) && Fresh(run[0], init) && k < |run|
    requires run[k].k.current in run[k].k.threads && Turn(run[k])
    ensures P.Inv(v, run[0].shared.sectors) && Agrees(run[k], v)
  {
    hide IsRun, Fresh, P.IsRun, P.Inv;
    var disk, moves := RunFollows(run, steps, init, locks, k);
    P.RunKeeps(disk, moves, run[0].shared.sectors, |moves|);
    v := disk[|moves|];
    AtTurn(run[k]);
    var a := Abs(SynchDisk(), run[k]);
    assert a.locals == Places(run[k]) && a.locals[run[k].k.current] == MyPlace(run[k]);
    hide Places;
  }

  /** The raw disk's assertion that it is idle never fails. */
  lemma IdleAtRequest(run: seq<World<Place, Raw>>, steps: seq<Step<Place, Raw>>, init: map<Sem, nat>, locks: set<Lock>, k: nat)
    requires IsRun(SynchDisk(), run, steps, init, locks) && Fresh(run[0], init) && k < |run|
    requires run[k].k.current in run[k].k.threads && Turn(run[k])
    requires MyPlace(run[k]).stage.Inside? && MyPlace(run[k]).stage.phase.Locked?
    ensures !run[k].shared.active
  {
    hide IsRun, Fresh, Turn;
    var v := MyView(run, steps, init, locks, k);
  }

  /** When P has returned in ReadSector or WriteSector, the interrupt of the thread's own request,
      the last one issued, has come; a read has brought the sector as all requests before it, one
      after the other, have left it; and so is the disk. */
  lemma EndsAfterItsInterrupt(run: seq<World<Place, Raw>>, steps: seq<Step<Place, Raw>>, init: map<Sem, nat>, locks: set<Lock>, k: nat)
    requires IsRun(SynchDisk(), run, steps, init, locks) && Fresh(run[0], init) && k < |run|
    requires run[k].k.current in run[k].k.threads && Turn(run[k])
    requires MyPlace(run[k]).stage.Inside? && MyPlace(run[k]).stage.phase.Served?
    ensures var raw, x, sectors := run[k].shared, MyPlace(run[k]), run[0].shared.sectors;
            var r, n := x.stage.phase.r, x.stage.phase.n;
            && !raw.active && n + 1 == |raw.requests| == raw.interrupts && raw.requests[n] == r
            && (r.Read? ==> r.sector < |P.Replay(sectors, raw.requests[..n])|
                            && x.got == Some(P.Replay(sectors, raw.requests[..n])[r.sector]))
            && raw.sectors == P.Replay(sectors, raw.requests)
  {
    hide IsRun, Fresh, Turn;
    var v := MyView(run, steps, init, locks, k);
    assert P.OwnRequest(v, run[0].shared.sectors, run[k].k.current);
    hide P.Replay;
  }

  /** What Acquire and Release assert of their caller never fails. */
  lemma CallsAllowed(run: seq<World<Place, Raw>>, steps: seq<Step<Place, Raw>>, init: map<Sem, nat>, locks: set<Lock>, k: nat)
    requires IsRun(SynchDisk(), run, steps, init, locks) && Fresh(run[0], init) && k < |run|
    requires run[k].k.current in run[k].k.threads && Turn(run[k]) && CallOf(MyPlace(run[k])).Some?
    ensures Formed(run[k].k) && Kernels.Enabled(run[k].k, ActionOf(CallOf(MyPlace(run[k])).value.0))
  {
    hide IsRun, Fresh, Formed, Kernels.Enabled, Good, Places, Values;
    var w := run[k];
    var c := CallOf(MyPlace(w)).value.0;
    var v := MyView(run, steps, init, locks, k);
    RunGood(SynchDisk(), run, steps, init, locks, k);
    CallAllowed(SynchDisk(), w, init, c);
    assert Abs(SynchDisk(), w).holder[LOCK] == v.lock;
  }
}
