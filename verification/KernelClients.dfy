/** Code that runs on the kernel, and the same code over atomic semaphores and locks. Whatever
    interleaving the kernel produces, each call of P, V, Acquire or Release takes effect at one
    moment between its call and its return, so a run on the kernel is one over atomic ones. */
module KernelClients {
  import opened Common
  import opened Kernels
  import opened KernelInvariants
  import opened KernelRuns
  import opened KernelUses

  datatype Call = P(n: nat) | V(n: nat) | Acquire(l: Lock) | Release(l: Lock)

  function SemOf(c: Call): Sem {
    match c
    case P(n) => Plain(n)
    case V(n) => Plain(n)
    case Acquire(l) => OfLock(l)
    case Release(l) => OfLock(l)
  }

  function ActionOf(c: Call): Action {
    match c
    case P(n) => CallP(n)
    case V(n) => CallVPlain(n)
    case Acquire(l) => CallAcquire(l)
    case Release(l) => CallRelease(l)
  }

  /** The code of some threads. `L` says where a thread is in it, `S` is the data they share, and
      `ours` the semaphores and locks that nobody else uses. A thread calls the kernel, or works
      on the data, or forks another thread into the code; and handlers may work on the data and
      call V. What is called depends only on where the thread is. */
  datatype Code<!L(!new), !S(!new)> = Code(
    ours: set<Sem>,
    call: L -> Option<(Call, L)>,
    local: (L, S, L, S) -> bool,
    fork: (L, S, Tid, L, L, S) -> bool,
    device: (S, nat, S) -> bool)

  // ---------------------------------------------------------------- over atomic ones

  datatype Atomic<L, S> = Atomic(value: map<Sem, nat>, holder: map<Lock, Option<Tid>>, locals: map<Tid, L>, shared: S)

  datatype Event<L, S> =
    | Does(t: Tid, next: L, data: S)
    | Calls(t: Tid)
    | Forks(t: Tid, u: Tid, child: L, next: L, data: S)
    | Fires(n: nat, data: S)

  /** P waits for a unit and Acquire for the lock; only its holder releases a lock. */
  ghost predicate CallEnabled<L, S>(a: Atomic<L, S>, t: Tid, c: Call) {
    var m := SemOf(c);
    match c
    case P(_) => m in a.value && a.value[m] > 0
    case V(_) => m in a.value
    case Acquire(l) => l in a.holder && a.holder[l].None?
    case Release(l) => l in a.holder && a.holder[l] == Some(t)
  }

  ghost predicate EventEnabled<L(!new), S(!new)>(code: Code<L, S>, a: Atomic<L, S>, e: Event<L, S>) {
    match e
    case Does(t, next, data) => t in a.locals && code.local(a.locals[t], a.shared, next, data)
    case Calls(t) => t in a.locals && code.call(a.locals[t]).Some? && CallEnabled(a, t, code.call(a.locals[t]).value.0)
    case Forks(t, u, child, next, data) => t in a.locals && u !in a.locals && code.fork(a.locals[t], a.shared, u, child, next, data)
    case Fires(n, data) => Plain(n) in a.value && code.device(a.shared, n, data)
  }

  ghost function CallNext<L, S>(a: Atomic<L, S>, t: Tid, c: Call, next: L): Atomic<L, S>
    requires CallEnabled(a, t, c)
  {
    var m := SemOf(c);
    var a' := a.(locals := a.locals[t := next]);
    match c
    case P(_) => a'.(value := a.value[m := a.value[m] - 1])
    case V(_) => a'.(value := a.value[m := a.value[m] + 1])
    case Acquire(l) => a'.(holder := a.holder[l := Some(t)])
    case Release(l) => a'.(holder := a.holder[l := None])
  }

  ghost function EventNext<L(!new), S(!new)>(code: Code<L, S>, a: Atomic<L, S>, e: Event<L, S>): Atomic<L, S>
    requires EventEnabled(code, a, e)
  {
    match e
    case Does(t, next, data) => a.(locals := a.locals[t := next], shared := data)
    case Calls(t) => CallNext(a, t, code.call(a.locals[t]).value.0, code.call(a.locals[t]).value.1)
    case Forks(t, u, child, next, data) => a.(locals := a.locals[t := next][u := child], shared := data)
    case Fires(n, data) => a.(value := a.value[Plain(n) := a.value[Plain(n)] + 1], shared := data)
  }

  ghost predicate IsAtomicRun<L(!new), S(!new)>(code: Code<L, S>, run: seq<Atomic<L, S>>, events: seq<Event<L, S>>) {
    && |run| == |events| + 1
    && forall i :: 0 <= i < |events| ==> EventEnabled(code, run[i], events[i]) && run[i + 1] == EventNext(code, run[i], events[i])
  }

  /** Nothing happens, or one event. */
  ghost predicate Follows<L(!new), S(!new)>(code: Code<L, S>, a: Atomic<L, S>, b: Atomic<L, S>) {
    a == b || exists e :: EventEnabled(code, a, e) && b == EventNext(code, a, e)
  }

  // ---------------------------------------------------------------- on the kernel

  /** A thread is at a place in its own code, or in a call made at `l`, or just back from it and
      about to go on at `next`. */
  datatype Where<L> = At(l: L) | In(l: L, c: Call, next: L)

  datatype World<L, S> = World(k: Kernel, locals: map<Tid, Where<L>>, shared: S)

  datatype Step<L, S> =
    | Other(a: Action)                             // the kernel's code, and what others do
    | Work(next: L, data: S)
    | Invoke
    | Spawn(u: Tid, child: L, next: L, data: S)
    | Handler(n: nat, data: S)

  /** Where the thread goes on when the kernel lets it. */
  function Here<L>(x: Where<L>): L {
    match x case At(l) => l case In(_, _, next) => next
  }

  /** The running thread is one of ours, in its own code. */
  ghost predicate Turn<L, S>(w: World<L, S>)
    requires w.k.current in w.k.threads
  {
    Me(w.k) == Tcb(Client, Running) && w.k.current in w.locals
  }

  ghost function MyPlace<L, S>(w: World<L, S>): L
    requires w.k.current in w.locals
  {
    Here(w.locals[w.k.current])
  }

  /** Not a call on our semaphores and locks. */
  predicate Foreign(ours: set<Sem>, a: Action) {
    match a
    case CallP(n) => Plain(n) !in ours
    case CallVPlain(n) => Plain(n) !in ours
    case DeviceV(n) => Plain(n) !in ours
    case CallAcquire(l) => OfLock(l) !in ours
    case CallRelease(l) => OfLock(l) !in ours
    case CallWait(_, l) => OfLock(l) !in ours
    case _ => true
  }

  /** In between their calls, threads of ours may do whatever else the kernel offers, which is
      more than their code does. */
  ghost predicate StepEnabled<L(!new), S(!new)>(code: Code<L, S>, w: World<L, S>, s: Step<L, S>)
    requires Formed(w.k)
  {
    match s
    case Other(a) => Foreign(code.ours, a) && Enabled(w.k, a)
    case Work(next, data) => Turn(w) && code.local(MyPlace(w), w.shared, next, data)
    case Invoke =>
      && Turn(w) && code.call(MyPlace(w)).Some? && SemOf(code.call(MyPlace(w)).value.0) in code.ours
      && Enabled(w.k, ActionOf(code.call(MyPlace(w)).value.0))
    case Spawn(u, child, next, data) =>
      && Turn(w) && code.fork(MyPlace(w), w.shared, u, child, next, data)
      && u !in w.locals && u != w.k.current && Enabled(w.k, CallFork(u))
    case Handler(n, data) => Plain(n) in code.ours && code.device(w.shared, n, data) && Enabled(w.k, DeviceV(n))
  }

  ghost function StepNext<L(!new), S(!new)>(code: Code<L, S>, w: World<L, S>, s: Step<L, S>): World<L, S>
    requires Formed(w.k) && Closed(w.k) && PcKnown(w.k) && StepEnabled(code, w, s)
  {
    var me := w.k.current;
    match s
    case Other(a) => w.(k := Apply(w.k, a))
    case Work(next, data) => w.(locals := w.locals[me := At(next)], shared := data)
    case Invoke =>
      var (c, next) := code.call(MyPlace(w)).value;
      w.(k := Apply(w.k, ActionOf(c)), locals := w.locals[me := In(MyPlace(w), c, next)])
    case Spawn(u, child, next, data) =>
      w.(k := Apply(w.k, CallFork(u)), locals := w.locals[me := At(next)][u := At(child)], shared := data)
    case Handler(n, data) => w.(k := Apply(w.k, DeviceV(n)), shared := data)
  }

  // ---------------------------------------------------------------- what it amounts to

  /** A call has not taken effect while its thread is using the semaphore. */
  ghost function PlaceOf<L>(k: Kernel, t: Tid, x: Where<L>): L {
    match x
    case At(l) => l
    case In(l, c, next) => if UseBy(k, SemOf(c), t) == Apart then next else l
  }

  /** What the kernel's maps say of our semaphores and locks. */
  ghost function Values(k: Kernel, ours: set<Sem>): map<Sem, nat> {
    k.value - set m | m in k.value && !(m.Plain? && m in ours)
  }

  ghost function Holders(k: Kernel, ours: set<Sem>): map<Lock, Option<Tid>> {
    k.log.holder - set l | l in k.log.holder && OfLock(l) !in ours
  }

  ghost predicate ArePlaces<L, S>(w: World<L, S>, places: map<Tid, L>) {
    places.Keys == w.locals.Keys && forall t :: t in w.locals ==> places[t] == PlaceOf(w.k, t, w.locals[t])
  }

  lemma PlacesExist<L, S>(w: World<L, S>)
    ensures exists places :: ArePlaces(w, places)
  {
    var places := Tabulated(w.locals.Keys, t requires t in w.locals => PlaceOf(w.k, t, w.locals[t]));
    assert ArePlaces(w, places);
  }

  ghost function Places<L(!new), S>(w: World<L, S>): (places: map<Tid, L>)
    ensures ArePlaces(w, places)
  {
    PlacesExist(w);
    var places :| ArePlaces(w, places);
    places
  }

  /** The kernel has our semaphores and locks. */
  ghost predicate Installed(k: Kernel, ours: set<Sem>) {
    forall m :: m in ours ==> m in k.value && (m.OfLock? ==> m.l in k.log.holder)
  }

  ghost function Abs<L(!new), S(!new)>(code: Code<L, S>, w: World<L, S>): Atomic<L, S>
    requires Installed(w.k, code.ours)
  {
    Atomic(Values(w.k, code.ours), Holders(w.k, code.ours), Places(w), w.shared)
  }

  // ---------------------------------------------------------------- what every step keeps

  predicate UseFits(u: Use, c: Call) {
    match u
    case Apart => true
    case Trying => c.P? || c.Acquire?
    case Releasing => c.Release?
    case Giving => c.V? || c.Release?
    case Pausing => false
  }

  /** Whoever uses a semaphore of ours is in the call that does so. */
  ghost predicate UseOk<L, S>(w: World<L, S>, t: Tid, m: Sem) {
    var u := UseBy(w.k, m, t);
    u == Apart || (t in w.locals && w.locals[t].In? && SemOf(w.locals[t].c) == m && UseFits(u, w.locals[t].c))
  }

  ghost predicate UsesOk<L, S>(w: World<L, S>, ours: set<Sem>) {
    forall t, m :: m in ours ==> UseOk(w, t, m)
  }

  ghost predicate CallsOk<L(!new), S(!new)>(code: Code<L, S>, w: World<L, S>) {
    forall t :: t in w.locals && w.locals[t].In? ==>
      var x := w.locals[t];
      SemOf(x.c) in code.ours && code.call(x.l) == Some((x.c, x.next))
  }

  ghost predicate Good<L(!new), S(!new)>(code: Code<L, S>, w: World<L, S>, init: map<Sem, nat>) {
    && Inv(w.k, init) && code.ours <= init.Keys
    && UsesOk(w, code.ours) && CallsOk(code, w)
  }

  lemma InvInstalled(k: Kernel, init: map<Sem, nat>, ours: set<Sem>)
    requires Inv(k, init) && ours <= init.Keys
    ensures Installed(k, ours) && k.current in k.threads
  {
  }

  /** A lock is free exactly if its semaphore has its unit, and a thread in Release, about to give
      the unit, is the holder. */
  lemma InvHolder(k: Kernel, init: map<Sem, nat>, l: Lock)
    requires Inv(k, init) && OfLock(l) in k.value
    ensures k.current in k.threads && l in k.log.holder && (k.value[OfLock(l)] > 0 <==> k.log.holder[l].None?)
    ensures UseBy(k, OfLock(l), k.current) == Giving ==> k.log.holder[l] == Some(k.current)
  {
    assert Held(k, l);
    hide Inv;
    assert Holds(k, l, k.current) <==> k.log.holder[l] == Some(k.current);
  }

  /** One step of the kernel, as all our semaphores see it. */
  ghost predicate Seen(k: Kernel, a: Action, k': Kernel, ours: set<Sem>)
    requires k.current in k.threads && Installed(k, ours)
  {
    forall m :: m in ours ==> OthersSame(k, k', m) && MyUse(k, a, k', m)
  }

  lemma KernelSeen(k: Kernel, a: Action, init: map<Sem, nat>, ours: set<Sem>)
    requires Inv(k, init) && ours <= init.Keys && Enabled(k, a)
    ensures Closed(k) && PcKnown(k) && k.current in k.threads && Installed(k, ours)
    ensures Inv(Apply(k, a), init) && Installed(Apply(k, a), ours) && Seen(k, a, Apply(k, a), ours)
  {
    hide Inv, Formed, Closed, PcKnown, Apply, Enabled, MyUse, OthersSame, Installed;
    InvReady(k, init);
    StepInv(k, a, init);
    InvInstalled(k, init, ours);
    InvInstalled(Apply(k, a), init, ours);
    forall m | m in ours
      ensures OthersSame(k, Apply(k, a), m) && MyUse(k, a, Apply(k, a), m)
    {
      StepUse(k, a, m, init);
    }
    SeenIf(k, a, Apply(k, a), ours);
  }

  lemma SeenIf(k: Kernel, a: Action, k': Kernel, ours: set<Sem>)
    requires k.current in k.threads && Installed(k, ours)
    requires forall m :: m in ours ==> m in k.value && OthersSame(k, k', m) && MyUse(k, a, k', m)
    ensures Seen(k, a, k', ours)
  {
    hide MyUse, OthersSame;
  }

  // ---------------------------------------------------------------- one step of the kernel

  /** A thread that uses none of our semaphores moves none of their units. */
  lemma ApartQuiet(k: Kernel, a: Action, k': Kernel, m: Sem, ours: set<Sem>)
    requires k.current in k.threads && m in k.value && MyUse(k, a, k', m) && UseBy(k, m, k.current) == Apart
    requires Foreign(ours, a) && m in ours
    ensures UseBy(k', m, k.current) == Apart && m in k'.value && k'.value[m] == k.value[m]
    ensures m.OfLock? && m.l in k.log.holder ==> m.l in k'.log.holder && k'.log.holder[m.l] == k.log.holder[m.l]
  {
  }

  /** What a step does to the semaphore that the running thread uses. */
  lemma InUse(k: Kernel, a: Action, k': Kernel, m: Sem, ours: set<Sem>, c: Call)
    requires k.current in k.threads && m in k.value && MyUse(k, a, k', m) && Foreign(ours, a) && m in ours && SemOf(c) == m
    requires UseBy(k, m, k.current) != Apart && UseFits(UseBy(k, m, k.current), c)
    requires m.OfLock? ==> m.l in k.log.holder
    ensures UseFits(UseBy(k', m, k.current), c) && m in k'.value && (m.OfLock? ==> m.l in k'.log.holder)
    ensures UseBy(k', m, k.current) != Apart ==>
              k'.value[m] == k.value[m] && (m.OfLock? ==> k'.log.holder[m.l] == k.log.holder[m.l])
    ensures UseBy(k', m, k.current) == Apart && UseBy(k, m, k.current) == Trying ==>
              k.value[m] > 0 && k'.value[m] == k.value[m] - 1 && (m.OfLock? ==> k'.log.holder[m.l] == Some(k.current))
    ensures UseBy(k', m, k.current) == Apart && UseBy(k, m, k.current) != Trying ==>
              UseBy(k, m, k.current) == Giving && k'.value[m] == k.value[m] + 1 && (m.OfLock? ==> k'.log.holder[m.l].None?)
  {
  }

  /** The call that the running thread is in, if it still uses its semaphore. */
  ghost predicate Busy<L, S>(w: World<L, S>) {
    && w.k.current in w.locals && w.locals[w.k.current].In?
    && UseBy(w.k, SemOf(w.locals[w.k.current].c), w.k.current) != Apart
  }

  /** Nothing has changed for a semaphore. */
  ghost predicate SameUnits(k: Kernel, k': Kernel, m: Sem)
    requires m in k.value && (m.OfLock? ==> m.l in k.log.holder)
  {
    && m in k'.value && k'.value[m] == k.value[m]
    && (m.OfLock? ==> m.l in k'.log.holder && k'.log.holder[m.l] == k.log.holder[m.l])
  }

  lemma OtherSems<L(!new), S(!new)>(code: Code<L, S>, w: World<L, S>, a: Action, k': Kernel, m: Sem)
    requires w.k.current in w.k.threads && Installed(w.k, code.ours) && Seen(w.k, a, k', code.ours) && UsesOk(w, code.ours)
    requires Foreign(code.ours, a) && m in code.ours
    requires Busy(w) ==> m != SemOf(w.locals[w.k.current].c)
    ensures SameUnits(w.k, k', m) && forall t :: UseBy(k', m, t) == UseBy(w.k, m, t)
  {
    var me := w.k.current;
    assert UseOk(w, me, m) && MyUse(w.k, a, k', m) && OthersSame(w.k, k', m);
    hide Seen, UsesOk, MyUse, UseBy, Foreign;
    ApartQuiet(w.k, a, k', m, code.ours);
  }

  /** The kernel's code, and what others do, is nothing, or the effect of the call that the
      running thread is in. */
  lemma OtherFollows<L(!new), S(!new)>(code: Code<L, S>, w: World<L, S>, a: Action, w': World<L, S>, init: map<Sem, nat>)
    requires Good(code, w, init) && w.k.current in w.k.threads && Installed(w.k, code.ours) && Installed(w'.k, code.ours)
    requires Seen(w.k, a, w'.k, code.ours) && Foreign(code.ours, a) && w' == w.(k := w'.k)
    ensures Follows(code, Abs(code, w), Abs(code, w')) && UsesOk(w', code.ours)
  {
    hide Inv, UseBy, Follows, MyUse, Foreign, Abs;
    forall m | m in code.ours && (Busy(w) ==> m != SemOf(w.locals[w.k.current].c))
      ensures SameUnits(w.k, w'.k, m) && forall t :: UseBy(w'.k, m, t) == UseBy(w.k, m, t)
    {
      OtherSems(code, w, a, w'.k, m);
    }
    if Busy(w) {
      BusyFollows(code, w, a, w', init);
    } else {
      AllSame(code, w, w');
      Stays(code, Abs(code, w));
    }
  }

  /** The running thread is in a call and using its semaphore; nobody uses or moves another. */
  ghost predicate OnlyMine<L(!new), S(!new)>(code: Code<L, S>, w: World<L, S>, w': World<L, S>)
    requires Installed(w.k, code.ours) && Busy(w)
  {
    var c := w.locals[w.k.current].c;
    && (forall m :: m in code.ours && m != SemOf(c) ==> SameUnits(w.k, w'.k, m) && forall t :: UseBy(w'.k, m, t) == UseBy(w.k, m, t))
    && (forall t :: t != w.k.current ==> UseBy(w'.k, SemOf(c), t) == UseBy(w.k, SemOf(c), t))
  }

  lemma BusyFollows<L(!new), S(!new)>(code: Code<L, S>, w: World<L, S>, a: Action, w': World<L, S>, init: map<Sem, nat>)
    requires Good(code, w, init) && w.k.current in w.k.threads && Installed(w.k, code.ours) && Installed(w'.k, code.ours) && Busy(w)
    requires Seen(w.k, a, w'.k, code.ours) && Foreign(code.ours, a) && w' == w.(k := w'.k)
    requires forall m :: m in code.ours && m != SemOf(w.locals[w.k.current].c) ==>
               SameUnits(w.k, w'.k, m) && forall t :: UseBy(w'.k, m, t) == UseBy(w.k, m, t)
    ensures Follows(code, Abs(code, w), Abs(code, w')) && UsesOk(w', code.ours)
  {
    hide Inv, UseBy, Follows, Abs;
    var me := w.k.current;
    var x := w.locals[me];
    var m := SemOf(x.c);
    assert UseOk(w, me, m) && MyUse(w.k, a, w'.k, m) && OthersSame(w.k, w'.k, m);
    hide MyUse, Foreign, Seen;
    InUse(w.k, a, w'.k, m, code.ours, x.c);
    assert OnlyMine(code, w, w');
    if m.OfLock? { InvHolder(w.k, init, m.l); }
    if UseBy(w'.k, m, me) != Apart {
      MineStays(code, w, w');
      Stays(code, Abs(code, w));
    } else {
      MineTakesEffect(code, w, w');
    }
    MineUses(code, w, w');
  }

  lemma MineUses<L(!new), S(!new)>(code: Code<L, S>, w: World<L, S>, w': World<L, S>)
    requires Installed(w.k, code.ours) && Busy(w) && OnlyMine(code, w, w') && UsesOk(w, code.ours) && w'.locals == w.locals
    requires UseFits(UseBy(w'.k, SemOf(w.locals[w.k.current].c), w.k.current), w.locals[w.k.current].c)
    ensures UsesOk(w', code.ours)
  {
    hide UseBy, UseFits, SameUnits;
    forall t, m | m in code.ours
      ensures UseOk(w', t, m)
    {
      assert UseOk(w, t, m);
    }
  }

  /** The other threads are where they were. */
  lemma OthersPlaces<L(!new), S(!new)>(code: Code<L, S>, w: World<L, S>, w': World<L, S>)
    requires Installed(w.k, code.ours) && Busy(w) && OnlyMine(code, w, w') && CallsOk(code, w) && w'.locals == w.locals
    ensures forall t :: t in w.locals && t != w.k.current ==> Places(w')[t] == Places(w)[t]
  {
    hide UseBy, SameUnits;
    forall t | t in w.locals && t != w.k.current
      ensures PlaceOf(w'.k, t, w'.locals[t]) == PlaceOf(w.k, t, w.locals[t])
    {
      if w.locals[t].In? { assert SemOf(w.locals[t].c) in code.ours; }
    }
  }

  lemma MineStays<L(!new), S(!new)>(code: Code<L, S>, w: World<L, S>, w': World<L, S>)
    requires Installed(w.k, code.ours) && Installed(w'.k, code.ours) && Busy(w) && OnlyMine(code, w, w') && CallsOk(code, w)
    requires w'.locals == w.locals && w'.shared == w.shared
    requires var m := SemOf(w.locals[w.k.current].c);
             UseBy(w'.k, m, w.k.current) != Apart && (m in code.ours ==> SameUnits(w.k, w'.k, m))
    ensures Abs(code, w') == Abs(code, w)
  {
    hide UseBy;
    OthersPlaces(code, w, w');
    assert Places(w') == Places(w);
    UnitsSame(w.k, w'.k, code.ours);
  }

  /** The unit is taken or given: this is where the call happens. */
  ghost predicate Happens(k: Kernel, k': Kernel, t: Tid, c: Call)
    requires SemOf(c) in k.value && SemOf(c) in k'.value
    requires SemOf(c).OfLock? ==> SemOf(c).l in k.log.holder && SemOf(c).l in k'.log.holder
  {
    match c
    case P(n) => k.value[Plain(n)] > 0 && k'.value[Plain(n)] == k.value[Plain(n)] - 1
    case V(n) => k'.value[Plain(n)] == k.value[Plain(n)] + 1
    case Acquire(l) => k.log.holder[l].None? && k'.log.holder[l] == Some(t)
    case Release(l) => k.log.holder[l] == Some(t) && k'.log.holder[l].None?
  }

  lemma MineTakesEffect<L(!new), S(!new)>(code: Code<L, S>, w: World<L, S>, w': World<L, S>)
    requires Installed(w.k, code.ours) && Installed(w'.k, code.ours) && Busy(w) && OnlyMine(code, w, w') && CallsOk(code, w)
    requires w'.locals == w.locals && w'.shared == w.shared
    requires var c := w.locals[w.k.current].c;
             && UseBy(w'.k, SemOf(c), w.k.current) == Apart && SemOf(c) in code.ours
             && Happens(w.k, w'.k, w.k.current, c)
    ensures Follows(code, Abs(code, w), Abs(code, w'))
  {
    hide UseBy;
    var me := w.k.current;
    var x := w.locals[me];
    var a, m := Abs(code, w), SemOf(x.c);
    OthersPlaces(code, w, w');
    assert Places(w') == Places(w)[me := x.next];
    MineUnits(w.k, w'.k, code.ours, m);
    assert a.locals[me] == x.l && code.call(x.l) == Some((x.c, x.next));
    hide Places, Values, Holders, OnlyMine;
    assert EventEnabled(code, a, Calls(me));
    assert EventNext(code, a, Calls(me)) == Abs(code, w');
  }

  lemma UnitsSame(k: Kernel, k': Kernel, ours: set<Sem>)
    requires Installed(k, ours) && Installed(k', ours) && forall m :: m in ours ==> SameUnits(k, k', m)
    ensures Values(k', ours) == Values(k, ours) && Holders(k', ours) == Holders(k, ours)
  {
    assert forall l :: OfLock(l) in ours ==> SameUnits(k, k', OfLock(l));
  }

  lemma MineUnits(k: Kernel, k': Kernel, ours: set<Sem>, m: Sem)
    requires Installed(k, ours) && Installed(k', ours) && m in ours
    requires forall n :: n in ours && n != m ==> SameUnits(k, k', n)
    ensures Values(k', ours) == if m.Plain? then Values(k, ours)[m := k'.value[m]] else Values(k, ours)
    ensures Holders(k', ours) == if m.OfLock? then Holders(k, ours)[m.l := k'.log.holder[m.l]] else Holders(k, ours)
    ensures m.Plain? ==> m in Values(k, ours) && Values(k, ours)[m] == k.value[m]
    ensures m.OfLock? ==> m.l in Holders(k, ours) && Holders(k, ours)[m.l] == k.log.holder[m.l]
  {
  }

  lemma Stays<L(!new), S(!new)>(code: Code<L, S>, a: Atomic<L, S>)
    ensures Follows(code, a, a)
  {
  }

  /** Nothing has changed for any of our semaphores. */
  lemma AllSame<L(!new), S(!new)>(code: Code<L, S>, w: World<L, S>, w': World<L, S>)
    requires Installed(w.k, code.ours) && Installed(w'.k, code.ours) && UsesOk(w, code.ours) && CallsOk(code, w)
    requires w'.locals == w.locals && w'.shared == w.shared
    requires forall m :: m in code.ours ==> SameUnits(w.k, w'.k, m) && forall t :: UseBy(w'.k, m, t) == UseBy(w.k, m, t)
    ensures Abs(code, w) == Abs(code, w') && UsesOk(w', code.ours)
  {
    hide UseBy, UseFits;
    forall t | t in w.locals
      ensures PlaceOf(w'.k, t, w'.locals[t]) == PlaceOf(w.k, t, w.locals[t])
    {
    }
    assert Places(w') == Places(w);
    UnitsSame(w.k, w'.k, code.ours);
    forall t, m | m in code.ours
      ensures UseOk(w', t, m)
    {
      assert UseOk(w, t, m);
    }
  }

  // ---------------------------------------------------------------- one step of the code

  /** In its own code the running thread uses no semaphore, and is where it goes on. */
  lemma AtTurn<L(!new), S(!new)>(w: World<L, S>)
    requires w.k.current in w.k.threads && Turn(w)
    ensures forall m :: UseBy(w.k, m, w.k.current) == Apart
    ensures w.k.current in Places(w) && Places(w)[w.k.current] == MyPlace(w)
  {
  }

  /** Threads other than the running one keep their places. */
  lemma SamePlaces<L(!new), S(!new)>(code: Code<L, S>, w: World<L, S>, w': World<L, S>, moved: set<Tid>)
    requires CallsOk(code, w)
    requires forall t :: t in w.locals && t !in moved ==> t in w'.locals && w'.locals[t] == w.locals[t]
    requires forall t, m :: m in code.ours && t !in moved ==> UseBy(w'.k, m, t) == UseBy(w.k, m, t)
    ensures forall t :: t in w.locals && t !in moved ==> Places(w')[t] == Places(w)[t]
  {
    hide UseBy;
    forall t | t in w.locals && t !in moved
      ensures PlaceOf(w'.k, t, w'.locals[t]) == PlaceOf(w.k, t, w.locals[t])
    {
      if w.locals[t].In? { assert SemOf(w.locals[t].c) in code.ours; }
    }
  }

  /** Units and uses are as before, except for the threads in `moved`, which use nothing. */
  lemma SameUses<L(!new), S(!new)>(w: World<L, S>, w': World<L, S>, ours: set<Sem>, moved: set<Tid>)
    requires UsesOk(w, ours)
    requires forall t :: t in w.locals && t !in moved ==> t in w'.locals && w'.locals[t] == w.locals[t]
    requires forall t, m :: m in ours ==> UseBy(w'.k, m, t) == UseBy(w.k, m, t)
    requires forall t, m :: m in ours && t in moved ==> UseBy(w.k, m, t) == Apart
    ensures UsesOk(w', ours)
  {
    hide UseBy, UseFits;
    forall t, m | m in ours
      ensures UseOk(w', t, m)
    {
      assert UseOk(w, t, m);
    }
  }

  lemma WorkFollows<L(!new), S(!new)>(code: Code<L, S>, w: World<L, S>, next: L, data: S)
    requires w.k.current in w.k.threads && Installed(w.k, code.ours) && UsesOk(w, code.ours) && CallsOk(code, w)
    requires Turn(w) && code.local(MyPlace(w), w.shared, next, data)
    ensures var w' := w.(locals := w.locals[w.k.current := At(next)], shared := data);
            Follows(code, Abs(code, w), Abs(code, w')) && UsesOk(w', code.ours) && CallsOk(code, w')
  {
    hide UseBy;
    var me := w.k.current;
    var w' := w.(locals := w.locals[me := At(next)], shared := data);
    AtTurn(w);
    SamePlaces(code, w, w', {me});
    SameUses(w, w', code.ours, {me});
    assert Places(w') == Places(w)[me := next];
    var e := Does(me, next, data);
    assert EventEnabled(code, Abs(code, w), e) && EventNext(code, Abs(code, w), e) == Abs(code, w');
  }

  /** A call by a thread in its own code begins the use of its semaphore, and nothing else. */
  lemma CallSeen(k: Kernel, c: Call, k': Kernel, m: Sem)
    requires k.current in k.threads && m in k.value && MyUse(k, ActionOf(c), k', m) && Me(k).pc.Client?
    requires m.OfLock? ==> m.l in k.log.holder
    ensures SameUnits(k, k', m)
    ensures if m == SemOf(c) then UseBy(k', m, k.current) != Apart && UseFits(UseBy(k', m, k.current), c)
            else UseBy(k', m, k.current) == Apart
  {
  }

  lemma InvokeFollows<L(!new), S(!new)>(code: Code<L, S>, w: World<L, S>, w': World<L, S>, c: Call, next: L)
    requires w.k.current in w.k.threads && Installed(w.k, code.ours) && Installed(w'.k, code.ours) && UsesOk(w, code.ours) && CallsOk(code, w)
    requires Turn(w) && code.call(MyPlace(w)) == Some((c, next)) && SemOf(c) in code.ours
    requires Seen(w.k, ActionOf(c), w'.k, code.ours) && w' == World(w'.k, w.locals[w.k.current := In(MyPlace(w), c, next)], w.shared)
    ensures Abs(code, w) == Abs(code, w') && UsesOk(w', code.ours) && CallsOk(code, w')
  {
    var me := w.k.current;
    AtTurn(w);
    hide UseBy, UseFits, MyUse;
    forall m | m in code.ours
      ensures SameUnits(w.k, w'.k, m) && OthersSame(w.k, w'.k, m)
      ensures if m == SemOf(c) then UseBy(w'.k, m, me) != Apart && UseFits(UseBy(w'.k, m, me), c) else UseBy(w'.k, m, me) == Apart
    {
      CallSeen(w.k, c, w'.k, m);
    }
    SamePlaces(code, w, w', {me});
    assert Places(w') == Places(w);
    UnitsSame(w.k, w'.k, code.ours);
    forall t, m | m in code.ours
      ensures UseOk(w', t, m)
    {
      assert UseOk(w, t, m);
    }
  }

  lemma SpawnFollows<L(!new), S(!new)>(code: Code<L, S>, w: World<L, S>, w': World<L, S>, u: Tid, child: L, next: L, data: S)
    requires w.k.current in w.k.threads && Installed(w.k, code.ours) && Installed(w'.k, code.ours) && UsesOk(w, code.ours) && CallsOk(code, w)
    requires Turn(w) && code.fork(MyPlace(w), w.shared, u, child, next, data) && u !in w.locals && u != w.k.current
    requires Seen(w.k, CallFork(u), w'.k, code.ours)
    requires w' == World(w'.k, w.locals[w.k.current := At(next)][u := At(child)], data)
    ensures Follows(code, Abs(code, w), Abs(code, w')) && UsesOk(w', code.ours) && CallsOk(code, w')
  {
    hide UseBy, MyUse, UseFits, Follows;
    var me := w.k.current;
    AtTurn(w);
    forall m | m in code.ours
      ensures SameUnits(w.k, w'.k, m) && (forall t :: UseBy(w'.k, m, t) == UseBy(w.k, m, t)) && UseBy(w.k, m, u) == Apart
    {
      assert UseOk(w, u, m);
      OtherSems(code, w, CallFork(u), w'.k, m);
    }
    hide Seen;
    SamePlaces(code, w, w', {me, u});
    SameUses(w, w', code.ours, {me, u});
    UnitsSame(w.k, w'.k, code.ours);
    hide Values, Holders, UsesOk, SameUnits, ArePlaces;
    TwoMoved(w, w', me, next, u, child);
    var e := Forks(me, u, child, next, data);
    assert EventEnabled(code, Abs(code, w), e) && EventNext(code, Abs(code, w), e) == Abs(code, w');
    Happened(code, Abs(code, w), e);
  }

  lemma Happened<L(!new), S(!new)>(code: Code<L, S>, a: Atomic<L, S>, e: Event<L, S>)
    requires EventEnabled(code, a, e)
    ensures Follows(code, a, EventNext(code, a, e))
  {
  }

  lemma TwoMoved<L(!new), S(!new)>(w: World<L, S>, w': World<L, S>, me: Tid, next: L, u: Tid, child: L)
    requires me in w.locals && u !in w.locals && w'.locals == w.locals[me := At(next)][u := At(child)]
    requires forall t :: t in w.locals && t != me ==> Places(w')[t] == Places(w)[t]
    ensures Places(w') == Places(w)[me := next][u := child]
  {
  }

  lemma DeviceSeen(k: Kernel, n: nat, k': Kernel, m: Sem)
    requires k.current in k.threads && m in k.value && MyUse(k, DeviceV(n), k', m)
    requires m.OfLock? ==> m.l in k.log.holder
    ensures UseBy(k', m, k.current) == UseBy(k, m, k.current)
    ensures if m == Plain(n) then m in k'.value && k'.value[m] == k.value[m] + 1 else SameUnits(k, k', m)
  {
  }

  lemma HandlerFollows<L(!new), S(!new)>(code: Code<L, S>, w: World<L, S>, w': World<L, S>, n: nat, data: S)
    requires w.k.current in w.k.threads && Installed(w.k, code.ours) && Installed(w'.k, code.ours) && UsesOk(w, code.ours) && CallsOk(code, w)
    requires Plain(n) in code.ours && code.device(w.shared, n, data)
    requires Seen(w.k, DeviceV(n), w'.k, code.ours) && w' == World(w'.k, w.locals, data)
    ensures Follows(code, Abs(code, w), Abs(code, w')) && UsesOk(w', code.ours) && CallsOk(code, w')
  {
    hide UseBy, MyUse;
    forall m | m in code.ours
      ensures (m != Plain(n) ==> SameUnits(w.k, w'.k, m)) && forall t :: UseBy(w'.k, m, t) == UseBy(w.k, m, t)
      ensures m == Plain(n) ==> m in w'.k.value && w'.k.value[m] == w.k.value[m] + 1
    {
      assert MyUse(w.k, DeviceV(n), w'.k, m) && OthersSame(w.k, w'.k, m);
      DeviceSeen(w.k, n, w'.k, m);
    }
    SamePlaces(code, w, w', {});
    SameUses(w, w', code.ours, {});
    assert Places(w') == Places(w);
    MineUnits(w.k, w'.k, code.ours, Plain(n));
    var e := Fires(n, data);
    assert EventEnabled(code, Abs(code, w), e) && EventNext(code, Abs(code, w), e) == Abs(code, w');
  }

  /** Every step keeps the invariant and is nothing, or one event over atomic semaphores and
      locks. */
  lemma StepFollows<L(!new), S(!new)>(code: Code<L, S>, w: World<L, S>, s: Step<L, S>, init: map<Sem, nat>)
    requires Good(code, w, init) && Formed(w.k) && StepEnabled(code, w, s)
    ensures Closed(w.k) && PcKnown(w.k) && Installed(w.k, code.ours)
    ensures var w' := StepNext(code, w, s);
            Good(code, w', init) && Installed(w'.k, code.ours) && Follows(code, Abs(code, w), Abs(code, w'))
  {
    hide Inv, Formed, Closed, PcKnown, UsesOk, Follows, Abs, Seen, Apply, Enabled, Installed, Foreign;
    InvReady(w.k, init);
    InvInstalled(w.k, init, code.ours);
    match s
    case Other(a) =>
      KernelSeen(w.k, a, init, code.ours);
      OtherFollows(code, w, a, StepNext(code, w, s), init);
    case Work(next, data) => WorkFollows(code, w, next, data);
    case Invoke =>
      var (c, next) := code.call(MyPlace(w)).value;
      KernelSeen(w.k, ActionOf(c), init, code.ours);
      InvokeFollows(code, w, StepNext(code, w, s), c, next);
      Stays(code, Abs(code, w));
    case Spawn(u, child, next, data) =>
      KernelSeen(w.k, CallFork(u), init, code.ours);
      SpawnFollows(code, w, StepNext(code, w, s), u, child, next, data);
    case Handler(n, data) =>
      KernelSeen(w.k, DeviceV(n), init, code.ours);
      HandlerFollows(code, w, StepNext(code, w, s), n, data);
  }

  // ---------------------------------------------------------------- every run

  /** The kernel starts with its one thread, and some threads are to run the code. */
  ghost predicate StartsAs<L(!new), S(!new)>(code: Code<L, S>, w: World<L, S>, init: map<Sem, nat>, locks: set<Lock>) {
    && Starts(w.k, init, locks) && code.ours <= init.Keys
    && forall t :: t in w.locals ==> w.locals[t].At?
  }

  ghost predicate CanStep<L(!new), S(!new)>(code: Code<L, S>, w: World<L, S>, s: Step<L, S>, w': World<L, S>) {
    Formed(w.k) && Closed(w.k) && PcKnown(w.k) && StepEnabled(code, w, s) && w' == StepNext(code, w, s)
  }

  ghost predicate IsRun<L(!new), S(!new)>(code: Code<L, S>, run: seq<World<L, S>>, steps: seq<Step<L, S>>,
                                          init: map<Sem, nat>, locks: set<Lock>)
  {
    && |run| == |steps| + 1 && StartsAs(code, run[0], init, locks)
    && forall i :: 0 <= i < |steps| ==> CanStep(code, run[i], steps[i], run[i + 1])
  }

  lemma InitialGood<L(!new), S(!new)>(code: Code<L, S>, w: World<L, S>, init: map<Sem, nat>, locks: set<Lock>)
    requires StartsAs(code, w, init, locks)
    ensures Good(code, w, init)
  {
    InitialInv(w.k, init, locks);
    hide Inv;
    assert forall t, m :: UseBy(w.k, m, t) == Apart;
  }

  lemma {:induction false} RunGood<L(!new), S(!new)>(code: Code<L, S>, run: seq<World<L, S>>, steps: seq<Step<L, S>>,
                                                     init: map<Sem, nat>, locks: set<Lock>, k: nat)
    requires IsRun(code, run, steps, init, locks) && k < |run|
    ensures Good(code, run[k], init) && Installed(run[k].k, code.ours)
  {
    hide Good, StartsAs, StepEnabled, Formed, Closed, PcKnown, StepNext, Follows, Installed;
    if k == 0 {
      InitialGood(code, run[0], init, locks);
      GoodInstalled(code, run[0], init);
    } else {
      RunGood(code, run, steps, init, locks, k - 1);
      assert CanStep(code, run[k - 1], steps[k - 1], run[k - 1 + 1]);
      StepFollows(code, run[k - 1], steps[k - 1], init);
    }
  }

  lemma GoodInstalled<L(!new), S(!new)>(code: Code<L, S>, w: World<L, S>, init: map<Sem, nat>)
    requires Good(code, w, init)
    ensures Installed(w.k, code.ours)
  {
    InvInstalled(w.k, init, code.ours);
  }

  /** The kernel's semaphores and locks are as good as atomic ones: whatever a run of the code on
      the kernel has come to, a run over atomic ones from the same start comes to. */
  lemma {:induction false} RunFollows<L(!new), S(!new)>(code: Code<L, S>, run: seq<World<L, S>>, steps: seq<Step<L, S>>,
                                                        init: map<Sem, nat>, locks: set<Lock>, k: nat)
    returns (atoms: seq<Atomic<L, S>>, events: seq<Event<L, S>>)
    requires IsRun(code, run, steps, init, locks) && k < |run|
    ensures Installed(run[0].k, code.ours) && Installed(run[k].k, code.ours)
    ensures IsAtomicRun(code, atoms, events) && |atoms| == |events| + 1
    ensures atoms[0] == Abs(code, run[0]) && atoms[|events|] == Abs(code, run[k])
  {
    hide Good, StartsAs, StepEnabled, Formed, Closed, PcKnown, StepNext, Abs, Installed, EventEnabled, EventNext;
    RunGood(code, run, steps, init, locks, 0);
    RunGood(code, run, steps, init, locks, k);
    if k == 0 {
      atoms, events := [Abs(code, run[0])], [];
    } else {
      atoms, events := RunFollows(code, run, steps, init, locks, k - 1);
      RunGood(code, run, steps, init, locks, k - 1);
      assert CanStep(code, run[k - 1], steps[k - 1], run[k - 1 + 1]);
      StepFollows(code, run[k - 1], steps[k - 1], init);
      var a, b := Abs(code, run[k - 1]), Abs(code, run[k]);
      if a != b {
        var e :| EventEnabled(code, a, e) && b == EventNext(code, a, e);
        OneMore(code, atoms, events, e);
        atoms, events := atoms + [b], events + [e];
      }
    }
  }

  lemma OneMore<L(!new), S(!new)>(code: Code<L, S>, atoms: seq<Atomic<L, S>>, events: seq<Event<L, S>>, e: Event<L, S>)
    requires IsAtomicRun(code, atoms, events) && EventEnabled(code, atoms[|events|], e)
    ensures IsAtomicRun(code, atoms + [EventNext(code, atoms[|events|], e)], events + [e])
  {
    hide EventEnabled, EventNext;
  }

  // ---------------------------------------------------------------- what Acquire and Release assert

  /** A call of ours passes what the kernel asserts exactly if, over atomic locks, the caller does
      not hold the lock that it acquires, and holds the one that it releases. */
  lemma CallAllowed<L(!new), S(!new)>(code: Code<L, S>, w: World<L, S>, init: map<Sem, nat>, c: Call)
    requires Good(code, w, init) && w.k.current in w.k.threads && Turn(w) && SemOf(c) in code.ours
    ensures Formed(w.k) && Installed(w.k, code.ours)
    ensures Enabled(w.k, ActionOf(c)) <==>
              match c
              case Acquire(l) => Abs(code, w).holder[l] != Some(w.k.current)
              case Release(l) => Abs(code, w).holder[l] == Some(w.k.current)
              case _ => true
  {
    hide Inv, UsesOk, CallsOk, Places, Values, Formed, Enabled;
    InvReady(w.k, init);
    InvInstalled(w.k, init, code.ours);
    assert SemOf(c) in w.k.value;
    if c.Acquire? || c.Release? { ClientHolds(w.k, init, c.l); }
    ClientMay(w.k, c);
  }

  lemma ClientMay(k: Kernel, c: Call)
    requires Formed(k) && Me(k) == Tcb(Client, Running) && SemOf(c) in k.value
    ensures c.Acquire? || c.Release? ==> c.l in k.owner
    ensures Enabled(k, ActionOf(c)) <==>
              (c.Acquire? ==> k.owner[c.l] != Some(k.current)) && (c.Release? ==> k.owner[c.l] == Some(k.current))
  {
  }

  /** In its own code a thread holds a lock exactly if it owns it. */
  lemma ClientHolds(k: Kernel, init: map<Sem, nat>, l: Lock)
    requires Inv(k, init) && k.current in k.threads && Me(k) == Tcb(Client, Running) && OfLock(l) in k.value
    ensures l in k.owner && l in k.log.holder && (k.owner[l] == Some(k.current) <==> k.log.holder[l] == Some(k.current))
  {
    assert Held(k, l);
    hide Inv;
    assert Holds(k, l, k.current) <==> k.log.holder[l] == Some(k.current);
  }
}
