/** The elevator and its passengers (threads/threadtest.cc) on the kernel itself: in every
    interleaving that the kernel produces, they follow the elevator over an atomic lock and atomic
    semaphores. */
module KernelElevator {
  import opened Common
  import opened Kernels
  import opened KernelClients
  import E = ElevatorProtocol

  /** E_lock, spaceSem, and floorArriveSem of a floor. */
  const LOCK: Lock := 0
  const SPACE := Plain(0)

  function Arrival(f: nat): Sem { Plain(f + 1) }

  function Ours(floors: nat): set<Sem> {
    {OfLock(LOCK), SPACE} + set f: nat | f <= floors :: Arrival(f)
  }

  /** A thread is a passenger, the lift, or one that calls ArrivingGoingFromTo. */
  datatype Place = Rider(p: E.Person) | LiftAt(pc: E.LiftPc, dir: int) | Caller

  /** The shared variables. `ids` records who has come, in order, and `lift` which thread is the lift. */
  datatype Hall = Hall(floors: nat, floor: int, doorsOpen: bool, onboard: int, waitingAt: seq<int>, wantOffAt: seq<int>,
                       spawning: bool, lift: Tid, ids: seq<Tid>)

  /** Whom it concerns: a passenger or the lift alone in the hall. */
  ghost function Scene(h: Hall, people: seq<E.Person>, pc: E.LiftPc, dir: int): E.World {
    E.World(h.floors, people, pc, dir, None, h.floor, h.doorsOpen, h.onboard, h.waitingAt, h.wantOffAt,
            seq(h.floors + 1, f => 0), 0, h.spawning)
  }

  ghost function HallOf(w: E.World, h: Hall): Hall {
    h.(floor := w.floor, doorsOpen := w.doorsOpen, onboard := w.onboard, waitingAt := w.waitingAt, wantOffAt := w.wantOffAt)
  }

  // ---------------------------------------------------------------- the code

  /** The calls of PersonMain. */
  function RiderCall(p: E.Person): Option<(Call, E.PersonPc)> {
    match p.pc
    case Start => Some((Acquire(LOCK), E.Register1))
    case Register2 => Some((Release(LOCK), E.AwaitLift))
    case AwaitLift => Some((P(Arrival(p.at).n), E.WantBoard))
    case WantBoard => Some((Acquire(LOCK), E.TestBoard))
    case NoBoard => Some((Release(LOCK), E.AwaitSpace))
    case AwaitSpace => Some((P(SPACE.n), E.WantBoard))
    case Board4 => Some((Release(LOCK), E.AwaitFloor))
    case AwaitFloor => Some((P(Arrival(p.to).n), E.WantLeave))
    case WantLeave => Some((Acquire(LOCK), E.TestLeave))
    case NoLeave => Some((Release(LOCK), E.AwaitFloor))
    case Leave3 => Some((V(SPACE.n), E.Leave4))
    case Leave4 => Some((Release(LOCK), E.Left))
    case _ => None
  }

  /** The calls of ElevatorMain. */
  function LiftCall(pc: E.LiftPc): Option<(Call, E.LiftPc)> {
    match pc
    case WantGo => Some((Acquire(LOCK), E.Go1))
    case Go2 => Some((Release(LOCK), E.Travel))
    case WantOpen => Some((Acquire(LOCK), E.Open1))
    case GiveWaiting(i, f) => Some((V(Arrival(f).n), E.WakeWaiting(i + 1)))
    case GiveRiders(i, f) => Some((V(Arrival(f).n), E.WakeRiders(i + 1)))
    case Advertise(i) => if i < E.CAPACITY then Some((V(SPACE.n), E.Advertise(i + 1))) else None
    case Open2 => Some((Release(LOCK), E.Dwell))
    case WantClose => Some((Acquire(LOCK), E.Close1))
    case Close2(stop) => Some((Release(LOCK), if stop then E.Stopped else E.WantGo))
    case _ => None
  }

  function CallOf(x: Place): Option<(Call, Place)> {
    match x
    case Rider(p) => (match RiderCall(p) case Some((c, pc)) => Some((c, Rider(p.(pc := pc)))) case None => None)
    case LiftAt(pc, dir) => (match LiftCall(pc) case Some((c, next)) => Some((c, LiftAt(next, dir))) case None => None)
    case Caller => None
  }

  /** A statement of PersonMain or ElevatorMain that works on the shared variables; or ElevatorTest
      declares the arrivals over. */
  ghost predicate Works(x: Place, h: Hall, next: Place, data: Hall) {
    match x
    case Rider(p) =>
      var w := Scene(h, [p], E.WantGo, 1);
      && RiderCall(p).None? && E.Formed(w) && E.PersonEnabled(w, 0)
      && next == Rider(E.PersonNext(w, 0).people[0]) && data == HallOf(E.PersonNext(w, 0), h)
    case LiftAt(pc, dir) =>
      var w := Scene(h, [], pc, dir);
      && LiftCall(pc).None? && E.Formed(w) && E.LiftEnabled(w)
      && next == LiftAt(E.LiftNext(w).lift, E.LiftNext(w).dir) && data == HallOf(E.LiftNext(w), h)
    case Caller => next == x && data == h.(spawning := false)
  }

  /** ArrivingGoingFromTo. */
  ghost predicate Comes(x: Place, h: Hall, u: Tid, child: Place, next: Place, data: Hall) {
    && x.Caller? && next == x && data == h.(ids := h.ids + [u])
    && child.Rider? && child.p.pc.Start? && 1 <= child.p.at <= h.floors && 1 <= child.p.to <= h.floors
  }

  ghost function Elevator(floors: nat): Code<Place, Hall> {
    Code(Ours(floors), CallOf, (x, h, next, data) => Works(x, h, next, data),
         (x, h, u, child, next, data) => Comes(x, h, u, child, next, data), (h, n, data) => false)
  }

  // ---------------------------------------------------------------- over atomic ones

  type State = Atomic<Place, Hall>

  ghost predicate Equipped(a: State) {
    && a.holder.Keys == {LOCK}
    && (forall m :: m in a.value <==> m.Plain? && m.n <= a.shared.floors + 1)
  }

  /** The lift is the lift, those who have come are passengers, each is listed once, and only
      they use the lock. */
  ghost predicate Cast(a: State) {
    var h := a.shared;
    && h.lift in a.locals && a.locals[h.lift].LiftAt?
    && (forall i :: 0 <= i < |h.ids| ==> h.ids[i] in a.locals && a.locals[h.ids[i]].Rider?)
    && (forall i, j :: 0 <= i < j < |h.ids| ==> h.ids[i] != h.ids[j])
    && (forall t :: t in a.locals && t != h.lift && t !in h.ids ==> a.locals[t].Caller?)
    && (LOCK in a.holder && a.holder[LOCK].Some? ==>
          a.holder[LOCK].value == h.lift || a.holder[LOCK].value in h.ids)
  }

  ghost function People(a: State): seq<E.Person>
    requires Cast(a)
  {
    seq(|a.shared.ids|, i requires 0 <= i < |a.shared.ids| => a.locals[a.shared.ids[i]].p)
  }

  ghost function Index(ids: seq<Tid>, t: Tid): nat
    requires t in ids
  {
    var i :| 0 <= i < |ids| && ids[i] == t;
    i
  }

  ghost function AgentOf(h: Hall, t: Tid): E.Agent {
    if t in h.ids then E.Passenger(Index(h.ids, t)) else E.Lift
  }

  ghost function LockOf(a: State): Option<E.Agent>
    requires LOCK in a.holder
  {
    if a.holder[LOCK].None? then None else Some(AgentOf(a.shared, a.holder[LOCK].value))
  }

  ghost function Arrivals(value: map<Sem, nat>, floors: nat): seq<nat>
    requires forall f: nat :: f <= floors ==> Arrival(f) in value
  {
    seq(floors + 1, f requires 0 <= f < floors + 1 => value[Arrival(f)])
  }

  lemma ArrivalsAfter(value: map<Sem, nat>, floors: nat, n: nat, v: nat)
    requires (forall f: nat :: f <= floors ==> Arrival(f) in value) && n <= floors + 1
    ensures Arrivals(value[Plain(n) := v], floors)
         == if n == 0 then Arrivals(value, floors) else Arrivals(value, floors)[n - 1 := v]
  {
  }

  ghost function View(a: State): E.World
    requires Equipped(a) && Cast(a)
  {
    var h := a.shared;
    E.World(h.floors, People(a), a.locals[h.lift].pc, a.locals[h.lift].dir, LockOf(a), h.floor, h.doorsOpen, h.onboard,
            h.waitingAt, h.wantOffAt, Arrivals(a.value, h.floors), a.value[SPACE], h.spawning)
  }

  // ---------------------------------------------------------------- the elevator's side

  /** The call can happen. */
  ghost predicate MayCall(w: E.World, c: Call) {
    match c
    case Acquire(_) => w.lock.None?
    case P(n) => if n == 0 then w.space > 0 else n <= |w.arrive| && w.arrive[n - 1] > 0
    case V(n) => n <= |w.arrive|
    case Release(_) => true
  }

  /** What it does to the lock and the semaphores. */
  ghost function Called(w: E.World, agent: E.Agent, c: Call): (w': E.World)
    requires MayCall(w, c)
    ensures w' == w.(lock := w'.lock, arrive := w'.arrive, space := w'.space)
  {
    match c
    case Acquire(_) => w.(lock := Some(agent))
    case Release(_) => w.(lock := None)
    case P(n) => if n == 0 then w.(space := w.space - 1) else w.(arrive := w.arrive[n - 1 := w.arrive[n - 1] - 1])
    case V(n) => if n == 0 then w.(space := w.space + 1) else w.(arrive := w.arrive[n - 1 := w.arrive[n - 1] + 1])
  }

  /** At a call, a passenger's step is that call. */
  lemma RiderCalls(w: E.World, i: nat)
    requires E.Formed(w) && E.Holders(w) && i < |w.people| && RiderCall(w.people[i]).Some?
    requires MayCall(w, RiderCall(w.people[i]).value.0)
    ensures var p, (c, pc) := w.people[i], RiderCall(w.people[i]).value;
            E.PersonEnabled(w, i) && E.PersonNext(w, i) == Called(w, E.Passenger(i), c).(people := w.people[i := p.(pc := pc)])
  {
    hide E.Formed, E.Holders, E.PersonNext, E.PersonEnabled, MayCall, Called;
    var c := RiderCall(w.people[i]).value.0;
    if c.P? || c.V? { RiderWaits(w, i); } else { RiderLocks(w, i); }
  }

  lemma RiderLocks(w: E.World, i: nat)
    requires E.Formed(w) && i < |w.people| && RiderCall(w.people[i]).Some?
    requires var c := RiderCall(w.people[i]).value.0; (c.Acquire? || c.Release?) && MayCall(w, c)
    ensures var p, (c, pc) := w.people[i], RiderCall(w.people[i]).value;
            E.PersonEnabled(w, i) && E.PersonNext(w, i) == Called(w, E.Passenger(i), c).(people := w.people[i := p.(pc := pc)])
  {
    hide E.Formed, E.MayBoard, E.MayLeave, E.Plus;
  }

  lemma RiderWaits(w: E.World, i: nat)
    requires E.Formed(w) && E.Holders(w) && i < |w.people| && RiderCall(w.people[i]).Some?
    requires var c := RiderCall(w.people[i]).value.0; (c.P? || c.V?) && MayCall(w, c)
    ensures var p, (c, pc) := w.people[i], RiderCall(w.people[i]).value;
            E.PersonEnabled(w, i) && E.PersonNext(w, i) == Called(w, E.Passenger(i), c).(people := w.people[i := p.(pc := pc)])
  {
    hide E.Formed, E.MayBoard, E.MayLeave, E.Plus, E.Holders, E.PersonNext, E.PersonEnabled, MayCall, Called;
    if w.people[i].pc.Leave3? || w.people[i].pc.AwaitSpace? { RiderSpace(w, i); } else { RiderArrival(w, i); }
  }

  lemma RiderSpace(w: E.World, i: nat)
    requires E.Formed(w) && E.Holders(w) && i < |w.people|
    requires var p := w.people[i]; (p.pc.AwaitSpace? || p.pc.Leave3?) && MayCall(w, RiderCall(p).value.0)
    ensures var p, (c, pc) := w.people[i], RiderCall(w.people[i]).value;
            E.PersonEnabled(w, i) && E.PersonNext(w, i) == Called(w, E.Passenger(i), c).(people := w.people[i := p.(pc := pc)])
  {
    assert E.HasLock(w.people[i].pc) <==> w.lock == Some(E.Passenger(i));
    hide E.Holders, E.Formed, E.MayBoard, E.MayLeave, E.Plus;
  }

  lemma RiderArrival(w: E.World, i: nat)
    requires E.Formed(w) && i < |w.people|
    requires var p := w.people[i]; (p.pc.AwaitLift? || p.pc.AwaitFloor?) && MayCall(w, RiderCall(p).value.0)
    ensures var p, (c, pc) := w.people[i], RiderCall(w.people[i]).value;
            E.PersonEnabled(w, i) && E.PersonNext(w, i) == Called(w, E.Passenger(i), c).(people := w.people[i := p.(pc := pc)])
  {
    hide E.Formed, E.MayBoard, E.MayLeave, E.Plus;
  }

  lemma LiftCalls(w: E.World)
    requires E.Formed(w) && E.Holders(w) && LiftCall(w.lift).Some? && MayCall(w, LiftCall(w.lift).value.0)
    ensures var (c, pc) := LiftCall(w.lift).value;
            E.LiftEnabled(w) && E.LiftNext(w) == Called(w, E.Lift, c).(lift := pc)
  {
    assert E.LiftHasLock(w.lift) <==> w.lock == Some(E.Lift);
    assert |w.arrive| == w.floors + 1;
    hide E.Holders, E.Formed, E.NextFloor;
  }

  /** The shared variables of a world are those of the hall. */
  ghost predicate Shows(w: E.World, h: Hall) {
    && w.floors == h.floors && w.floor == h.floor && w.doorsOpen == h.doorsOpen && w.onboard == h.onboard
    && w.waitingAt == h.waitingAt && w.wantOffAt == h.wantOffAt && w.spawning == h.spawning
  }

  ghost function Shown(w: E.World, h: Hall): E.World {
    w.(floor := h.floor, doorsOpen := h.doorsOpen, onboard := h.onboard, waitingAt := h.waitingAt, wantOffAt := h.wantOffAt)
  }

  /** Elsewhere, a passenger's step concerns that passenger and the hall alone. */
  lemma RiderWorks(w: E.World, h: Hall, i: nat, next: Place, data: Hall)
    requires E.Formed(w) && E.Holders(w) && Shows(w, h) && i < |w.people| && Works(Rider(w.people[i]), h, next, data)
    ensures E.PersonEnabled(w, i) && next.Rider?
    ensures E.PersonNext(w, i) == Shown(w, data).(people := w.people[i := next.p]) && Shows(E.PersonNext(w, i), data)
  {
    assert E.HasLock(w.people[i].pc) <==> w.lock == Some(E.Passenger(i));
    assert 1 <= w.people[i].at <= w.floors && 1 <= w.people[i].to <= w.floors;
    hide E.Holders, E.Formed;
  }

  lemma LiftWorks(w: E.World, h: Hall, next: Place, data: Hall)
    requires E.Formed(w) && E.Holders(w) && Shows(w, h) && Works(LiftAt(w.lift, w.dir), h, next, data)
    ensures E.LiftEnabled(w) && next.LiftAt?
    ensures E.LiftNext(w) == Shown(w, data).(lift := next.pc, dir := next.dir) && Shows(E.LiftNext(w), data)
  {
    assert E.LiftHasLock(w.lift) <==> w.lock == Some(E.Lift);
    assert 1 <= w.floor <= w.floors && |w.waitingAt| == |w.wantOffAt| == w.floors + 1;
    hide E.Holders, E.Formed;
  }

  // ---------------------------------------------------------------- one event

  lemma IndexIs(ids: seq<Tid>, i: nat)
    requires i < |ids| && forall j, k :: 0 <= j < k < |ids| ==> ids[j] != ids[k]
    ensures ids[i] in ids && Index(ids, ids[i]) == i
  {
    var j := Index(ids, ids[i]);
    assert 0 <= j < |ids| && ids[j] == ids[i];
  }

  ghost predicate SameCast(h: Hall, h': Hall) {
    h'.floors == h.floors && h'.lift == h.lift && h'.ids == h.ids
  }

  /** A passenger moves on. */
  lemma RiderMoves(a: State, a': State, i: nat, p: E.Person)
    requires Cast(a) && i < |a.shared.ids| && SameCast(a.shared, a'.shared) && a'.locals == a.locals[a.shared.ids[i] := Rider(p)]
    requires LOCK in a'.holder && a'.holder[LOCK].Some? ==>
               a'.holder[LOCK].value == a.shared.lift || a'.holder[LOCK].value in a.shared.ids
    ensures Cast(a') && People(a') == People(a)[i := p] && a'.locals[a.shared.lift] == a.locals[a.shared.lift]
  {
    assert a.shared.ids[i] in a.shared.ids;
    assert a.shared.ids[i] != a.shared.lift;
  }

  /** The lift moves on. */
  lemma LiftMoves(a: State, a': State, pc: E.LiftPc, dir: int)
    requires Cast(a) && SameCast(a.shared, a'.shared) && a'.locals == a.locals[a.shared.lift := LiftAt(pc, dir)]
    requires LOCK in a'.holder && a'.holder[LOCK].Some? ==>
               a'.holder[LOCK].value == a.shared.lift || a'.holder[LOCK].value in a.shared.ids
    ensures Cast(a') && People(a') == People(a) && a.shared.lift !in a.shared.ids
  {
  }

  /** The lock and the semaphores after a call. */
  lemma CallShown(a: State, a': State, t: Tid, c: Call, next: Place)
    requires Equipped(a) && Cast(a) && Cast(a') && a'.shared == a.shared && CallEnabled(a, t, c) && a' == CallNext(a, t, c, next)
    requires t in a.shared.ids || t == a.shared.lift
    requires SemOf(c).OfLock? ==> SemOf(c) == OfLock(LOCK)
    requires SemOf(c).Plain? ==> SemOf(c).n <= a.shared.floors + 1
    ensures Equipped(a') && MayCall(View(a), c)
    ensures var w := Called(View(a), AgentOf(a.shared, t), c);
            View(a') == w.(people := People(a'), lift := a'.locals[a.shared.lift].pc, dir := a'.locals[a.shared.lift].dir)
  {
    hide Cast, AgentOf, Arrivals, People, MayCall, Called, Equipped, CallEnabled, CallNext, View;
    if SemOf(c).Plain? { UnitShown(a, a', t, c, next); } else { LockShown(a, a', t, c, next); }
  }

  lemma LockShown(a: State, a': State, t: Tid, c: Call, next: Place)
    requires Equipped(a) && Cast(a) && Cast(a') && a'.shared == a.shared && CallEnabled(a, t, c) && a' == CallNext(a, t, c, next)
    requires SemOf(c) == OfLock(LOCK)
    ensures Equipped(a') && MayCall(View(a), c)
    ensures var w := Called(View(a), AgentOf(a.shared, t), c);
            View(a') == w.(people := People(a'), lift := a'.locals[a.shared.lift].pc, dir := a'.locals[a.shared.lift].dir)
  {
    hide Cast, AgentOf, Arrivals, People;
  }

  lemma UnitShown(a: State, a': State, t: Tid, c: Call, next: Place)
    requires Equipped(a) && Cast(a) && Cast(a') && a'.shared == a.shared && CallEnabled(a, t, c) && a' == CallNext(a, t, c, next)
    requires SemOf(c).Plain? && SemOf(c).n <= a.shared.floors + 1
    ensures Equipped(a') && MayCall(View(a), c)
    ensures var w := Called(View(a), AgentOf(a.shared, t), c);
            View(a') == w.(people := People(a'), lift := a'.locals[a.shared.lift].pc, dir := a'.locals[a.shared.lift].dir)
  {
    hide Cast, AgentOf, People, LockOf, Arrivals;
    var n := SemOf(c).n;
    UnitAt(a, n);
    SameLock(a, a');
    ArrivalsAfter(a.value, a.shared.floors, n, a'.value[SemOf(c)]);
  }

  lemma UnitAt(a: State, n: nat)
    requires Equipped(a) && n <= a.shared.floors + 1
    ensures Plain(n) in a.value && |Arrivals(a.value, a.shared.floors)| == a.shared.floors + 1
    ensures n > 0 ==> a.value[Plain(n)] == Arrivals(a.value, a.shared.floors)[n - 1]
  {
    if n > 0 { assert Plain(n) == Arrival(n - 1); }
  }

  lemma SameLock(a: State, a': State)
    requires LOCK in a.holder && a'.holder == a.holder && a'.shared == a.shared
    ensures LockOf(a') == LockOf(a)
  {
  }

  /** The step of the elevator that an event is. */
  ghost function StepOf(a: State, e: Event<Place, Hall>): E.Step {
    match e
    case Does(t, _, _) => ThreadStep(a, t)
    case Calls(t) => ThreadStep(a, t)
    case Forks(_, _, child, _, _) => if child.Rider? then E.Arrives(child.p.at, child.p.to) else E.SpawnerDone
    case Fires(_, _) => E.SpawnerDone
  }

  ghost function ThreadStep(a: State, t: Tid): E.Step {
    if t in a.shared.ids then E.PersonStep(Index(a.shared.ids, t))
    else if t == a.shared.lift then E.LiftStep
    else E.SpawnerDone
  }

  ghost predicate Ready(a: State, floors: nat) {
    Equipped(a) && Cast(a) && a.shared.floors == floors && E.Inv(View(a))
  }

  /** The event is that step. */
  ghost predicate Matches(a: State, e: Event<Place, Hall>, a': State)
    requires Equipped(a) && Cast(a) && E.Formed(View(a))
  {
    && Equipped(a') && Cast(a') && a'.shared.floors == a.shared.floors
    && E.Enabled(View(a), StepOf(a, e)) && View(a') == E.Next(View(a), StepOf(a, e))
  }

  lemma RiderInView(a: State, t: Tid) returns (i: nat)
    requires Equipped(a) && Cast(a) && t in a.shared.ids
    ensures i < |a.shared.ids| == |People(a)| && a.shared.ids[i] == t && Index(a.shared.ids, t) == i
    ensures t in a.locals && a.locals[t] == Rider(People(a)[i]) && t != a.shared.lift
  {
    i := Index(a.shared.ids, t);
  }

  lemma RiderCallFollows(a: State, t: Tid, floors: nat)
    requires Ready(a, floors) && t in a.shared.ids && EventEnabled(Elevator(floors), a, Calls(t))
    ensures Matches(a, Calls(t), EventNext(Elevator(floors), a, Calls(t)))
  {
    hide E.Inv, E.Formed, E.Holders, E.PersonNext, E.PersonEnabled, Equipped, Cast, People, LockOf, Called, MayCall;
    var a' := EventNext(Elevator(floors), a, Calls(t));
    InvParts(View(a));
    var i := RiderInView(a, t);
    var (c, pc) := RiderCall(People(a)[i]).value;
    var p := People(a)[i].(pc := pc);
    CallKnown(a, t, c);
    CallHolder(a, t, c, Rider(p));
    RiderMoves(a, a', i, p);
    CallShown(a, a', t, c, Rider(p));
    RiderCalls(View(a), i);
  }

  lemma InvParts(w: E.World)
    requires E.Inv(w)
    ensures E.Formed(w) && E.Holders(w)
  {
  }

  lemma CallKnown(a: State, t: Tid, c: Call)
    requires Equipped(a) && CallEnabled(a, t, c)
    ensures var m := SemOf(c);
            (m.OfLock? ==> m == OfLock(LOCK)) && (m.Plain? ==> m.n <= a.shared.floors + 1)
  {
  }

  /** Only the caller comes to hold the lock. */
  lemma CallHolder(a: State, t: Tid, c: Call, next: Place)
    requires Cast(a) && CallEnabled(a, t, c) && (t in a.shared.ids || t == a.shared.lift)
    ensures var a' := CallNext(a, t, c, next);
            LOCK in a'.holder && a'.holder[LOCK].Some? ==>
              a'.holder[LOCK].value == a.shared.lift || a'.holder[LOCK].value in a.shared.ids
  {
  }

  lemma LiftCallFollows(a: State, t: Tid, floors: nat)
    requires Ready(a, floors) && t == a.shared.lift && EventEnabled(Elevator(floors), a, Calls(t))
    ensures Matches(a, Calls(t), EventNext(Elevator(floors), a, Calls(t)))
  {
    hide E.Inv, E.Formed, E.Holders, E.LiftNext, E.LiftEnabled, Equipped, Cast, People, LockOf, Called, MayCall;
    var a' := EventNext(Elevator(floors), a, Calls(t));
    InvParts(View(a));
    LiftInView(a);
    var (c, pc) := LiftCall(View(a).lift).value;
    var next := LiftAt(pc, View(a).dir);
    CallKnown(a, t, c);
    CallHolder(a, t, c, next);
    LiftMoves(a, a', pc, View(a).dir);
    CallShown(a, a', t, c, next);
    LiftCalls(View(a));
  }

  lemma LiftInView(a: State)
    requires Equipped(a) && Cast(a)
    ensures a.shared.lift in a.locals && a.locals[a.shared.lift] == LiftAt(View(a).lift, View(a).dir)
    ensures a.shared.lift !in a.shared.ids && AgentOf(a.shared, a.shared.lift) == E.Lift
  {
  }

  // ---------------------------------------------------------------- the other events

  lemma ViewShows(a: State)
    requires Equipped(a) && Cast(a)
    ensures Shows(View(a), a.shared)
  {
  }

  /** Work on the shared variables leaves the lock and the semaphores alone. */
  lemma WorkShown(a: State, a': State)
    requires Equipped(a) && Cast(a) && Cast(a') && SameCast(a.shared, a'.shared) && a'.shared.spawning == a.shared.spawning
    requires a'.value == a.value && a'.holder == a.holder
    ensures Equipped(a')
    ensures View(a') == Shown(View(a), a'.shared).(people := People(a'), lift := a'.locals[a.shared.lift].pc, dir := a'.locals[a.shared.lift].dir)
  {
    hide Cast, People, Arrivals;
  }

  lemma RiderWorkFollows(a: State, t: Tid, next: Place, data: Hall, floors: nat)
    requires Ready(a, floors) && t in a.shared.ids && EventEnabled(Elevator(floors), a, Does(t, next, data))
    ensures Matches(a, Does(t, next, data), EventNext(Elevator(floors), a, Does(t, next, data)))
  {
    hide E.Inv, E.Formed, E.Holders, E.PersonNext, E.PersonEnabled, Equipped, Cast, People, LockOf, Works, Shows;
    var a' := EventNext(Elevator(floors), a, Does(t, next, data));
    InvParts(View(a));
    var i := RiderInView(a, t);
    ViewShows(a);
    WorkKeepsCast(a.locals[t], a.shared, next, data);
    RiderWorks(View(a), a.shared, i, next, data);
    CastHolder(a);
    RiderMoves(a, a', i, next.p);
    WorkShown(a, a');
  }

  lemma WorkKeepsCast(x: Place, h: Hall, next: Place, data: Hall)
    requires Works(x, h, next, data)
    ensures SameCast(h, data) && (!x.Caller? ==> data.spawning == h.spawning)
  {
    hide E.Formed, E.PersonNext, E.LiftNext, E.PersonEnabled, E.LiftEnabled;
  }

  lemma CastHolder(a: State)
    requires Cast(a)
    ensures LOCK in a.holder && a.holder[LOCK].Some? ==>
              a.holder[LOCK].value == a.shared.lift || a.holder[LOCK].value in a.shared.ids
  {
  }

  lemma LiftWorkFollows(a: State, t: Tid, next: Place, data: Hall, floors: nat)
    requires Ready(a, floors) && t == a.shared.lift && EventEnabled(Elevator(floors), a, Does(t, next, data))
    ensures Matches(a, Does(t, next, data), EventNext(Elevator(floors), a, Does(t, next, data)))
  {
    hide E.Inv, E.Formed, E.Holders, E.LiftNext, E.LiftEnabled, Equipped, Cast, People, LockOf, Works, Shows;
    var a' := EventNext(Elevator(floors), a, Does(t, next, data));
    InvParts(View(a));
    LiftInView(a);
    ViewShows(a);
    WorkKeepsCast(a.locals[t], a.shared, next, data);
    LiftWorks(View(a), a.shared, next, data);
    CastHolder(a);
    LiftMoves(a, a', next.pc, next.dir);
    WorkShown(a, a');
  }

  lemma CallerFollows(a: State, t: Tid, next: Place, data: Hall, floors: nat)
    requires Ready(a, floors) && t !in a.shared.ids && t != a.shared.lift
    requires EventEnabled(Elevator(floors), a, Does(t, next, data))
    ensures Matches(a, Does(t, next, data), EventNext(Elevator(floors), a, Does(t, next, data)))
  {
    hide E.Inv, Arrivals;
    InvParts(View(a));
    var a' := EventNext(Elevator(floors), a, Does(t, next, data));
    assert a.locals[t].Caller? && a'.locals == a.locals && Cast(a') && People(a') == People(a);
  }

  lemma CallerSilent(a: State, t: Tid, floors: nat)
    requires Ready(a, floors) && EventEnabled(Elevator(floors), a, Calls(t))
    ensures t in a.shared.ids || t == a.shared.lift
  {
    hide E.Inv, View;
  }

  /** Somebody joins. */
  lemma CastGrows(a: State, a': State, u: Tid, p: E.Person)
    requires Cast(a) && u !in a.locals && a'.locals == a.locals[u := Rider(p)] && a'.holder == a.holder
    requires a'.shared == a.shared.(ids := a.shared.ids + [u])
    ensures Cast(a') && People(a') == People(a) + [p] && a'.locals[a.shared.lift] == a.locals[a.shared.lift]
  {
    var ids, ids' := a.shared.ids, a'.shared.ids;
    assert forall i :: 0 <= i < |ids| ==> ids'[i] == ids[i] && ids[i] != u;
    assert ids'[|ids|] == u;
  }

  lemma LockGrows(a: State, a': State, u: Tid)
    requires Equipped(a) && Cast(a) && Cast(a') && a'.holder == a.holder && a'.shared == a.shared.(ids := a.shared.ids + [u])
    requires u !in a.locals
    ensures LockOf(a') == LockOf(a)
  {
    if a.holder[LOCK].Some? {
      var t := a.holder[LOCK].value;
      if t in a.shared.ids {
        var i := RiderInView(a, t);
        assert a'.shared.ids[i] == t;
        IndexIs(a'.shared.ids, i);
      }
    }
  }

  lemma ComesFollows(a: State, e: Event<Place, Hall>, floors: nat)
    requires Ready(a, floors) && e.Forks? && EventEnabled(Elevator(floors), a, e)
    ensures Matches(a, e, EventNext(Elevator(floors), a, e))
  {
    hide E.Inv, E.Formed, Arrivals, Cast, People, LockOf, Equipped;
    InvParts(View(a));
    var a' := EventNext(Elevator(floors), a, e);
    assert a'.locals == a.locals[e.u := Rider(e.child.p)];
    CastGrows(a, a', e.u, e.child.p);
    EquippedStays(a, a');
    LockGrows(a, a', e.u);
  }

  lemma EquippedStays(a: State, a': State)
    requires Equipped(a) && a'.value == a.value && a'.holder == a.holder && a'.shared.floors == a.shared.floors
    ensures Equipped(a')
  {
  }

  lemma EventFollows(a: State, e: Event<Place, Hall>, floors: nat)
    requires Ready(a, floors) && EventEnabled(Elevator(floors), a, e)
    ensures Matches(a, e, EventNext(Elevator(floors), a, e))
  {
    hide Ready, Matches, Works, E.Inv, View, Equipped;
    match e
    case Does(t, next, data) =>
      if t in a.shared.ids {
        RiderWorkFollows(a, t, next, data, floors);
      } else if t == a.shared.lift {
        LiftWorkFollows(a, t, next, data, floors);
      } else {
        CallerFollows(a, t, next, data, floors);
      }
    case Calls(t) =>
      CallerSilent(a, t, floors);
      if t in a.shared.ids { RiderCallFollows(a, t, floors); } else { LiftCallFollows(a, t, floors); }
    case Forks(_, _, _, _, _) => ComesFollows(a, e, floors);
    case Fires(_, _) =>
  }

  // ---------------------------------------------------------------- every run

  ghost predicate Begins(a: State, floors: nat, spawning: bool) {
    2 <= floors && Equipped(a) && Cast(a) && a.shared.floors == floors && View(a) == E.Init(floors, spawning)
  }

  lemma {:induction false} AtomicFollows(atoms: seq<State>, events: seq<Event<Place, Hall>>, floors: nat, spawning: bool)
    returns (run: seq<E.World>, steps: seq<E.Step>)
    requires IsAtomicRun(Elevator(floors), atoms, events) && Begins(atoms[0], floors, spawning)
    ensures |atoms| == |events| + 1 && Equipped(atoms[|events|]) && Cast(atoms[|events|])
    ensures E.IsRun(run, steps, floors, spawning) && |run| == |steps| + 1 && run[|steps|] == View(atoms[|events|])
    ensures atoms[|events|].shared.floors == floors
    decreases |events|
  {
    hide E.Enabled, E.Next, E.Formed, E.Inv, Equipped, Cast, View, EventEnabled, EventNext, StepOf, E.Init;
    if events == [] {
      run, steps := [E.Init(floors, spawning)], [];
    } else {
      var n := |events| - 1;
      run, steps := AtomicFollows(atoms[..n + 1], events[..n], floors, spawning);
      E.RunKeeps(run, steps, floors, spawning, |steps|);
      InvParts(run[|steps|]);
      EventFollows(atoms[n], events[n], floors);
      run, steps := run + [View(atoms[n + 1])], steps + [StepOf(atoms[n], events[n])];
    }
  }

  /** The lift is forked and at its start, nobody has come, and the semaphores are at 0. */
  ghost predicate Fresh(w: World<Place, Hall>, init: map<Sem, nat>, floors: nat, spawning: bool) {
    && 2 <= floors && (forall m :: m in Ours(floors) && m.Plain? ==> m in init && init[m] == 0)
    && w.shared == Hall(floors, 1, false, 0, seq(floors + 1, f => 0), seq(floors + 1, f => 0), spawning, w.shared.lift, [])
    && w.shared.lift in w.locals
    && forall t :: t in w.locals ==> w.locals[t] == At(if t == w.shared.lift then LiftAt(E.WantGo, 1) else Caller)
  }

  lemma OursAre(floors: nat)
    ensures forall m :: m in Ours(floors) <==> m == OfLock(LOCK) || (m.Plain? && m.n <= floors + 1)
  {
    forall m: Sem | m.Plain? && 0 < m.n <= floors + 1
      ensures m in Ours(floors)
    {
      assert m == Arrival(m.n - 1);
    }
  }

  lemma FreshBegins(w: World<Place, Hall>, init: map<Sem, nat>, locks: set<Lock>, floors: nat, spawning: bool)
    requires StartsAs(Elevator(floors), w, init, locks) && Fresh(w, init, floors, spawning)
    ensures Installed(w.k, Ours(floors)) && Begins(Abs(Elevator(floors), w), floors, spawning)
  {
    hide Ours;
    OursAre(floors);
    FreshEquipped(w, init, locks, floors, spawning);
    FreshCast(w, floors);
    var a := Abs(Elevator(floors), w);
    hide Cast, Equipped;
    assert View(a).arrive == E.Init(floors, spawning).arrive;
  }

  lemma FreshEquipped(w: World<Place, Hall>, init: map<Sem, nat>, locks: set<Lock>, floors: nat, spawning: bool)
    requires StartsAs(Elevator(floors), w, init, locks) && Fresh(w, init, floors, spawning)
    ensures Installed(w.k, Ours(floors))
    ensures var a := Abs(Elevator(floors), w);
            Equipped(a) && a.holder[LOCK].None? && forall m :: m in a.value ==> a.value[m] == 0
  {
    OursAre(floors);
    assert OfLock(LOCK) in init && LOCK in locks;
    hide Ours;
  }

  lemma FreshCast(w: World<Place, Hall>, floors: nat)
    requires Installed(w.k, Ours(floors)) && Equipped(Abs(Elevator(floors), w)) && Abs(Elevator(floors), w).holder[LOCK].None?
    requires w.shared.lift in w.locals && w.shared.ids == []
    requires forall t :: t in w.locals ==> w.locals[t] == At(if t == w.shared.lift then LiftAt(E.WantGo, 1) else Caller)
    ensures var a := Abs(Elevator(floors), w);
            Cast(a) && People(a) == [] && a.locals[w.shared.lift] == LiftAt(E.WantGo, 1)
  {
    hide Ours, Values, Holders;
  }

  /** The elevator on the kernel refines the one over an atomic lock and atomic semaphores. */
  lemma RunFollows(run: seq<World<Place, Hall>>, steps: seq<Step<Place, Hall>>, init: map<Sem, nat>, locks: set<Lock>,
                   floors: nat, spawning: bool, k: nat)
    returns (lift: seq<E.World>, moves: seq<E.Step>)
    requires IsRun(Elevator(floors), run, steps, init, locks) && Fresh(run[0], init, floors, spawning) && k < |run|
    ensures Installed(run[k].k, Ours(floors)) && E.IsRun(lift, moves, floors, spawning) && |lift| == |moves| + 1
    ensures var a := Abs(Elevator(floors), run[k]);
            Equipped(a) && Cast(a) && lift[|moves|] == View(a)
  {
    FreshBegins(run[0], init, locks, floors, spawning);
    hide Fresh, View, Abs, E.IsRun, IsAtomicRun, Equipped, Cast, Begins, Ours;
    var atoms, events := KernelClients.RunFollows(Elevator(floors), run, steps, init, locks, k);
    lift, moves := AtomicFollows(atoms, events, floors, spawning);
  }

  /** On the kernel, in every interleaving: whenever the lock is free, waitingAt counts the people
      registered and not aboard, wantOffAt the riders bound for each floor, and the riders, no
      more than five, are just those of all floors. */
  lemma Ledger(run: seq<World<Place, Hall>>, steps: seq<Step<Place, Hall>>, init: map<Sem, nat>, locks: set<Lock>,
               floors: nat, spawning: bool, k: nat, f: nat)
    requires IsRun(Elevator(floors), run, steps, init, locks) && Fresh(run[0], init, floors, spawning) && k < |run|
    requires 1 <= f <= floors && LOCK in run[k].k.log.holder && run[k].k.log.holder[LOCK].None?
    ensures Installed(run[k].k, Ours(floors)) && Equipped(Abs(Elevator(floors), run[k])) && Cast(Abs(Elevator(floors), run[k]))
    ensures var h, people := run[k].shared, People(Abs(Elevator(floors), run[k]));
            && f < |h.waitingAt| && h.waitingAt[f] == E.Count(people, (p: E.Person) => p.at == f && E.Expecting(p.pc))
            && f < |h.wantOffAt| && h.wantOffAt[f] == E.Count(people, (p: E.Person) => p.to == f && E.Riding(p.pc))
            && h.onboard == E.Count(people, (p: E.Person) => E.Riding(p.pc)) && 0 <= h.onboard <= E.CAPACITY
  {
    hide Fresh, IsRun, E.IsRun, E.Count, Cast, People, Arrivals, Ours;
    var lift, moves := RunFollows(run, steps, init, locks, floors, spawning, k);
    LockFree(run[k], floors);
    FloorsKept(lift, moves, floors, spawning, |moves|);
    E.Ledger(lift, moves, floors, spawning, |moves|, f);
  }

  lemma LockFree(w: World<Place, Hall>, floors: nat)
    requires Installed(w.k, Ours(floors)) && Equipped(Abs(Elevator(floors), w)) && Cast(Abs(Elevator(floors), w))
    requires LOCK in w.k.log.holder && w.k.log.holder[LOCK].None?
    ensures View(Abs(Elevator(floors), w)).lock.None?
  {
    OursAre(floors);
    hide Cast, People, Arrivals;
  }

  lemma {:induction false} FloorsKept(run: seq<E.World>, steps: seq<E.Step>, floors: nat, spawning: bool, k: nat)
    requires E.IsRun(run, steps, floors, spawning) && k < |run|
    ensures run[k].floors == floors
  {
    if k > 0 {
      FloorsKept(run, steps, floors, spawning, k - 1);
      assert run[k - 1 + 1] == E.Next(run[k - 1], steps[k - 1]);
    }
  }

  /** Who holds the lock on the kernel is who holds it in the elevator. */
  lemma RiderHolds(a: State, t: Tid, i: nat)
    requires Equipped(a) && Cast(a) && i < |a.shared.ids| && a.shared.ids[i] == t && Index(a.shared.ids, t) == i
    ensures a.holder[LOCK] == Some(t) <==> LockOf(a) == Some(E.Passenger(i))
  {
    if LockOf(a) == Some(E.Passenger(i)) {
      var u := a.holder[LOCK].value;
      assert u in a.shared.ids && a.shared.ids[Index(a.shared.ids, u)] == u;
    }
  }

  lemma LiftHolds(a: State)
    requires Equipped(a) && Cast(a)
    ensures a.holder[LOCK] == Some(a.shared.lift) <==> LockOf(a) == Some(E.Lift)
  {
    LiftInView(a);
  }

  /** A thread at a call of Acquire does not hold the lock, and one at a call of Release does; and
      it calls on semaphores that exist. */
  lemma CallsFit(a: State, t: Tid, floors: nat)
    requires Ready(a, floors) && t in a.locals && CallOf(a.locals[t]).Some?
    ensures var c := CallOf(a.locals[t]).value.0;
            && SemOf(c) in Ours(floors)
            && (c.Acquire? ==> a.holder[LOCK] != Some(t)) && (c.Release? ==> a.holder[LOCK] == Some(t))
  {
    hide E.Inv, Ours, LockOf, People;
    OursAre(floors);
    if t in a.shared.ids {
      var i := RiderInView(a, t);
      RiderHolds(a, t, i);
      RiderFits(View(a), i);
    } else {
      LiftInView(a);
      LiftHolds(a);
      LiftFits(View(a));
    }
  }

  lemma RiderFits(w: E.World, i: nat)
    requires E.Inv(w) && i < |w.people| && RiderCall(w.people[i]).Some?
    ensures var c := RiderCall(w.people[i]).value.0;
            && (c.Acquire? ==> c.l == LOCK && w.lock != Some(E.Passenger(i))) && (c.Release? ==> c.l == LOCK && w.lock == Some(E.Passenger(i)))
            && (c.P? || c.V? ==> c.n <= w.floors + 1)
  {
    assert E.HasLock(w.people[i].pc) <==> w.lock == Some(E.Passenger(i));
    assert 1 <= w.people[i].at <= w.floors && 1 <= w.people[i].to <= w.floors;
    hide E.Inv;
  }

  lemma LiftFits(w: E.World)
    requires E.Inv(w) && LiftCall(w.lift).Some?
    ensures var c := LiftCall(w.lift).value.0;
            && (c.Acquire? ==> c.l == LOCK && w.lock != Some(E.Lift)) && (c.Release? ==> c.l == LOCK && w.lock == Some(E.Lift))
            && (c.P? || c.V? ==> c.n <= w.floors + 1)
  {
    assert E.LiftHasLock(w.lift) <==> w.lock == Some(E.Lift);
    hide E.Holders, E.Counts;
  }

  /** What Acquire and Release assert of their caller never fails. */
  lemma CallsAllowed(run: seq<World<Place, Hall>>, steps: seq<Step<Place, Hall>>, init: map<Sem, nat>, locks: set<Lock>,
                     floors: nat, spawning: bool, k: nat)
    requires IsRun(Elevator(floors), run, steps, init, locks) && Fresh(run[0], init, floors, spawning) && k < |run|
    requires run[k].k.current in run[k].k.threads && Turn(run[k]) && CallOf(MyPlace(run[k])).Some?
    ensures Formed(run[k].k) && StepEnabled(Elevator(floors), run[k], Invoke)
  {
    hide Fresh, IsRun, E.IsRun, E.Inv, Cast, Ours, Good, Formed, Kernels.Enabled, View, Equipped, Places, Values;
    var w := run[k];
    var c := CallOf(MyPlace(w)).value.0;
    var lift, moves := RunFollows(run, steps, init, locks, floors, spawning, k);
    E.RunKeeps(lift, moves, floors, spawning, |moves|);
    FloorsKept(lift, moves, floors, spawning, |moves|);
    var a := Abs(Elevator(floors), w);
    ViewFloors(a);
    AtTurn(w);
    CallsFit(a, w.k.current, floors);
    RunGood(Elevator(floors), run, steps, init, locks, k);
    CallAllowed(Elevator(floors), w, init, c);
    LockOnly(c);
  }

  lemma ViewFloors(a: State)
    requires Equipped(a) && Cast(a)
    ensures View(a).floors == a.shared.floors
  {
  }

  lemma LockOnly(c: Call)
    requires SemOf(c).Plain? || SemOf(c) == OfLock(LOCK)
    ensures c.Acquire? || c.Release? ==> c.l == LOCK
  {
  }
}
