/** The elevator and its passengers (threads/threadtest.cc): any number of people, one lift,
    one lock, and semaphores to wake people. Every update of a shared variable is a step of
    its own, so other threads may run anywhere between two of them. */
module ElevatorProtocol {
  import opened Common

  const CAPACITY := 5

  /** Where a person is in PersonMain. At NoBoard and NoLeave the test has failed and the lock is
      about to be released. */
  datatype PersonPc =
    | Start | Register1 | Register2          // before and after waitingAt[at]++
    | AwaitLift                              // floorArriveSem[at]->P()
    | WantBoard | TestBoard | NoBoard | AwaitSpace   // the loop before boarding
    | Board1 | Board2 | Board3 | Board4      // E_onboard++, waitingAt[at]--, wantOffAt[to]++, Release
    | AwaitFloor                             // floorArriveSem[to]->P()
    | WantLeave | TestLeave | NoLeave        // the loop before leaving
    | Leave1 | Leave2 | Leave3 | Leave4      // E_onboard--, wantOffAt[to]--, spaceSem->V(), Release
    | Left

  datatype Person = Person(at: nat, to: nat, pc: PersonPc)

  /** Where the lift is in ElevatorMain. */
  datatype LiftPc =
    | WantGo | Go1 | Go2                               // choose the next floor
    | Travel | WantOpen | Open1                        // E_doorsOpen = true
    | WakeWaiting(i: nat) | GiveWaiting(i: nat, f: nat)   // the loops of Vs: test, and V at floor f
    | WakeRiders(i: nat) | GiveRiders(i: nat, f: nat) | Advertise(i: nat) | Open2
    | Dwell | WantClose | Close1                       // E_doorsOpen = false
    | Scan(f: nat, any: bool) | Close2(stop: bool)
    | Stopped

  datatype Agent = Lift | Passenger(i: nat)

  datatype World = World(
    floors: nat,
    people: seq<Person>,
    lift: LiftPc,
    dir: int,
    lock: Option<Agent>,
    floor: int,                 // E_currentFloor
    doorsOpen: bool,
    onboard: int,
    waitingAt: seq<int>,
    wantOffAt: seq<int>,
    arrive: seq<nat>,           // floorArriveSem
    space: nat,                 // spaceSem
    spawning: bool)

  function Init(floors: nat, spawning: bool): World {
    World(floors, [], WantGo, 1, None, 1, false, 0,
          seq(floors + 1, f => 0), seq(floors + 1, f => 0), seq(floors + 1, f => 0), 0, spawning)
  }

  // ---------------------------------------------------------------- counting people

  function Count(ps: seq<Person>, f: Person -> bool): nat {
    if ps == [] then 0 else (if f(ps[0]) then 1 else 0) + Count(ps[1..], f)
  }

  lemma {:induction false} CountUpdate(ps: seq<Person>, i: nat, p: Person, f: Person -> bool)
    requires i < |ps|
    ensures Count(ps[i := p], f) == Count(ps, f) - Unit(f(ps[i])) + Unit(f(p))
  {
    if i == 0 {
      assert ps[0 := p][1..] == ps[1..];
    } else {
      assert ps[i := p][1..] == ps[1..][i - 1 := p];
      CountUpdate(ps[1..], i - 1, p, f);
    }
  }

  lemma {:induction false} CountAppend(ps: seq<Person>, p: Person, f: Person -> bool)
    ensures Count(ps + [p], f) == Count(ps, f) + Unit(f(p))
  {
    if ps == [] {
      assert ps + [p] == [p] && [p][1..] == [];
    } else {
      assert (ps + [p])[1..] == ps[1..] + [p];
      CountAppend(ps[1..], p, f);
    }
  }

  lemma {:induction false} CountNone(ps: seq<Person>, f: Person -> bool, i: nat)
    requires Count(ps, f) == 0 && i < |ps|
    ensures !f(ps[i])
  {
    if i > 0 { CountNone(ps[1..], f, i - 1); }
  }

  /** Registered and not yet counted as boarded; aboard; counted as bound for a floor. */
  predicate IsWaiting(pc: PersonPc) {
    pc.Register2? || pc.AwaitLift? || pc.WantBoard? || pc.TestBoard? || pc.NoBoard?
    || pc.AwaitSpace? || pc.Board1? || pc.Board2?
  }

  predicate IsAboard(pc: PersonPc) {
    pc.Board2? || pc.Board3? || pc.Board4? || pc.AwaitFloor? || pc.WantLeave? || pc.TestLeave? || pc.NoLeave?
    || pc.Leave1?
  }

  predicate IsBound(pc: PersonPc) {
    pc.Board4? || pc.AwaitFloor? || pc.WantLeave? || pc.TestLeave? || pc.NoLeave? || pc.Leave1? || pc.Leave2?
  }

  function Waiting(f: nat): Person -> bool { (p: Person) => p.at == f && IsWaiting(p.pc) }

  function Bound(f: nat): Person -> bool { (p: Person) => p.to == f && IsBound(p.pc) }

  function Aboard(): Person -> bool { (p: Person) => IsAboard(p.pc) }

  // ---------------------------------------------------------------- steps

  ghost predicate Formed(w: World) {
    && 2 <= w.floors && |w.waitingAt| == |w.wantOffAt| == |w.arrive| == w.floors + 1
    && 1 <= w.floor <= w.floors && (w.dir == 1 || w.dir == -1)
    && (forall i :: 0 <= i < |w.people| ==> 1 <= w.people[i].at <= w.floors && 1 <= w.people[i].to <= w.floors)
  }

  predicate MayBoard(w: World, p: Person) { w.doorsOpen && w.floor == p.at && w.onboard < CAPACITY }

  predicate MayLeave(w: World, p: Person) { w.doorsOpen && w.floor == p.to }

  predicate PersonEnabled(w: World, i: nat)
    requires Formed(w)
  {
    && i < |w.people|
    && var p := w.people[i];
       match p.pc
       case Start => w.lock.None?
       case WantBoard => w.lock.None?
       case WantLeave => w.lock.None?
       case AwaitLift => w.arrive[p.at] > 0
       case AwaitFloor => w.arrive[p.to] > 0
       case AwaitSpace => w.space > 0
       case Left => false
       case _ => true
  }

  predicate HasLock(pc: PersonPc) {
    !(pc.Start? || pc.AwaitLift? || pc.WantBoard? || pc.AwaitSpace? || pc.AwaitFloor? || pc.WantLeave? || pc.Left?)
  }

  /** The order of PersonMain, with its two loops. */
  function NextPc(w: World, p: Person): PersonPc {
    match p.pc
    case Start => Register1
    case Register1 => Register2
    case Register2 => AwaitLift
    case AwaitLift => WantBoard
    case WantBoard => TestBoard
    case TestBoard => if MayBoard(w, p) then Board1 else NoBoard
    case NoBoard => AwaitSpace
    case AwaitSpace => WantBoard
    case Board1 => Board2
    case Board2 => Board3
    case Board3 => Board4
    case Board4 => AwaitFloor
    case AwaitFloor => WantLeave
    case WantLeave => TestLeave
    case TestLeave => if MayLeave(w, p) then Leave1 else NoLeave
    case NoLeave => AwaitFloor
    case Leave1 => Leave2
    case Leave2 => Leave3
    case Leave3 => Leave4
    case Leave4 => Left
    case Left => Left
  }

  function Plus(s: seq<int>, f: nat, n: int): seq<int>
    requires f < |s|
  {
    s[f := s[f] + n]
  }

  /** One statement of PersonMain. */
  function PersonNext(w: World, i: nat): World
    requires Formed(w) && PersonEnabled(w, i)
  {
    var p := w.people[i];
    var pc := NextPc(w, p);
    w.(people := w.people[i := p.(pc := pc)],
       lock := if HasLock(pc) then Some(Passenger(i)) else if HasLock(p.pc) then None else w.lock,
       onboard := match p.pc case Board1 => w.onboard + 1 case Leave1 => w.onboard - 1 case _ => w.onboard,
       waitingAt := match p.pc
         case Register1 => Plus(w.waitingAt, p.at, 1) case Board2 => Plus(w.waitingAt, p.at, -1) case _ => w.waitingAt,
       wantOffAt := match p.pc
         case Board3 => Plus(w.wantOffAt, p.to, 1) case Leave2 => Plus(w.wantOffAt, p.to, -1) case _ => w.wantOffAt,
       arrive := match p.pc
         case AwaitLift => w.arrive[p.at := w.arrive[p.at] - 1]
         case AwaitFloor => w.arrive[p.to := w.arrive[p.to] - 1]
         case _ => w.arrive,
       space := match p.pc case AwaitSpace => w.space - 1 case Leave3 => w.space + 1 case _ => w.space)
  }

  predicate LiftEnabled(w: World) {
    match w.lift
    case WantGo => w.lock.None?
    case WantOpen => w.lock.None?
    case WantClose => w.lock.None?
    case Stopped => false
    case _ => true
  }

  function NextFloor(w: World): (int, int) {
    var next := w.floor + w.dir;
    if next < 1 then (2, 1) else if next > w.floors then (w.floors - 1, -1) else (next, w.dir)
  }

  /** One more unit for floor f. */
  function Wake(arrive: seq<nat>, f: nat): seq<nat> {
    if f < |arrive| then arrive[f := arrive[f] + 1] else arrive
  }

  predicate LiftHasLock(pc: LiftPc) {
    !(pc.WantGo? || pc.Travel? || pc.WantOpen? || pc.Dwell? || pc.WantClose? || pc.Stopped?)
  }

  /** The order of ElevatorMain, with its loops. */
  function LiftNextPc(w: World): LiftPc
    requires Formed(w)
  {
    match w.lift
    case WantGo => Go1
    case Go1 => Go2
    case Go2 => Travel
    case Travel => WantOpen
    case WantOpen => Open1
    case Open1 => WakeWaiting(0)
    case WakeWaiting(i) => if i < w.waitingAt[w.floor] then GiveWaiting(i, w.floor) else WakeRiders(0)
    case GiveWaiting(i, _) => WakeWaiting(i + 1)
    case WakeRiders(i) => if i < w.wantOffAt[w.floor] then GiveRiders(i, w.floor) else Advertise(0)
    case GiveRiders(i, _) => WakeRiders(i + 1)
    case Advertise(i) => if i < CAPACITY then Advertise(i + 1) else Open2
    case Open2 => Dwell
    case Dwell => WantClose
    case WantClose => Close1
    case Close1 => Scan(1, w.onboard > 0)
    case Scan(f, any) =>
      if 1 <= f <= w.floors && !any then Scan(f + 1, w.waitingAt[f] > 0 || w.wantOffAt[f] > 0)
      else Close2(!w.spawning && !any)
    case Close2(stop) => if stop then Stopped else WantGo
    case Stopped => Stopped
  }

  /** One statement of ElevatorMain. */
  function LiftNext(w: World): World
    requires Formed(w) && LiftEnabled(w)
  {
    var pc := LiftNextPc(w);
    w.(lift := pc,
       lock := if LiftHasLock(pc) then Some(Lift) else if LiftHasLock(w.lift) then None else w.lock,
       floor := if w.lift.Go1? then NextFloor(w).0 else w.floor,
       dir := if w.lift.Go1? then NextFloor(w).1 else w.dir,
       doorsOpen := match w.lift case Open1 => true case Close1 => false case _ => w.doorsOpen,
       arrive := match w.lift case GiveWaiting(_, f) => Wake(w.arrive, f) case GiveRiders(_, f) => Wake(w.arrive, f) case _ => w.arrive,
       space := if pc.Advertise? && w.lift.Advertise? then w.space + 1 else w.space)
  }

  /** A step of a person or of the lift, a new arrival, or the end of the arrivals. */
  datatype Step = PersonStep(i: nat) | LiftStep | Arrives(at: int, to: int) | SpawnerDone

  /** Floors that do not exist are taken for the nearest that do. */
  function Clamp(w: World, f: int): nat {
    if f < 1 then 1 else if f > w.floors then w.floors else f
  }

  predicate Enabled(w: World, s: Step)
    requires Formed(w)
  {
    match s
    case PersonStep(i) => PersonEnabled(w, i)
    case LiftStep => LiftEnabled(w)
    case Arrives(_, _) => true
    case SpawnerDone => true
  }

  function Next(w: World, s: Step): World
    requires Formed(w) && Enabled(w, s)
  {
    match s
    case PersonStep(i) => PersonNext(w, i)
    case LiftStep => LiftNext(w)
    case Arrives(at, to) => w.(people := w.people + [Person(Clamp(w, at), Clamp(w, to), Start)])
    case SpawnerDone => w.(spawning := false)
  }

  // ---------------------------------------------------------------- what every step keeps

  ghost predicate Holders(w: World) {
    && (forall i :: 0 <= i < |w.people| ==> (HasLock(w.people[i].pc) <==> w.lock == Some(Passenger(i))))
    && (LiftHasLock(w.lift) <==> w.lock == Some(Lift))
    && (w.lock.Some? && w.lock.value.Passenger? ==> w.lock.value.i < |w.people|)
  }

  ghost predicate Counts(w: World)
    requires Formed(w)
  {
    && w.onboard == Count(w.people, Aboard())
    && (forall f :: 1 <= f <= w.floors ==> w.waitingAt[f] == Count(w.people, Waiting(f)))
    && (forall f :: 1 <= f <= w.floors ==> w.wantOffAt[f] == Count(w.people, Bound(f)))
  }

  /** People get in and out only at their own floors, with the doors open and room. */
  ghost predicate AtDoor(w: World, p: Person) {
    && (p.pc.Board1? ==> MayBoard(w, p))
    && (p.pc.Board2? || p.pc.Board3? || p.pc.Board4? ==> w.doorsOpen && w.floor == p.at)
    && (p.pc.Leave1? || p.pc.Leave2? || p.pc.Leave3? || p.pc.Leave4? ==> MayLeave(w, p))
  }

  /** Nobody counted as waiting or riding on the floors below f. */
  ghost predicate ClearBelow(w: World, f: nat)
    requires Formed(w)
  {
    w.onboard <= 0 && forall g :: 1 <= g < f && g <= w.floors ==> w.waitingAt[g] <= 0 && w.wantOffAt[g] <= 0
  }

  ghost predicate Scanned(w: World)
    requires Formed(w)
  {
    && (w.lift.Scan? ==> 1 <= w.lift.f <= w.floors + 1 && (!w.lift.any ==> ClearBelow(w, w.lift.f)))
    && (w.lift.Close2? && w.lift.stop ==> ClearBelow(w, w.floors + 1))
    && (w.lift.GiveWaiting? || w.lift.GiveRiders? ==> 1 <= w.lift.f <= w.floors)
  }

  ghost predicate Inv(w: World) {
    && Formed(w) && Holders(w) && Counts(w) && Scanned(w) && w.onboard <= CAPACITY
    && (forall i :: 0 <= i < |w.people| ==> AtDoor(w, w.people[i]))
  }

  /** One person moves, and the counters move with that person. */
  lemma CountsMove(w: World, w': World, i: nat, pc: PersonPc)
    requires Formed(w) && Formed(w') && Counts(w) && i < |w.people| && w'.floors == w.floors
    requires w'.people == w.people[i := w.people[i].(pc := pc)]
    requires var p := w.people[i];
             && w'.onboard == w.onboard - Unit(IsAboard(p.pc)) + Unit(IsAboard(pc))
             && w'.waitingAt == w.waitingAt[p.at := w.waitingAt[p.at] - Unit(IsWaiting(p.pc)) + Unit(IsWaiting(pc))]
             && w'.wantOffAt == w.wantOffAt[p.to := w.wantOffAt[p.to] - Unit(IsBound(p.pc)) + Unit(IsBound(pc))]
    ensures Counts(w')
  {
    hide Count, IsAboard, IsWaiting, IsBound;
    var p := w.people[i];
    CountUpdate(w.people, i, p.(pc := pc), Aboard());
    forall f | 1 <= f <= w.floors
      ensures w'.waitingAt[f] == Count(w'.people, Waiting(f)) && w'.wantOffAt[f] == Count(w'.people, Bound(f))
    {
      CountUpdate(w.people, i, p.(pc := pc), Waiting(f));
      CountUpdate(w.people, i, p.(pc := pc), Bound(f));
    }
  }

  /** What a step of a person amounts to: the person moves, the counters with them; the lock is
      taken when free, and given up by its holder; and the doors are tested on the way in and out. */
  ghost predicate Moves(w: World, w': World, i: nat, pc: PersonPc)
    requires Formed(w) && i < |w.people|
  {
    && w' == w.(people := w'.people, lock := w'.lock, onboard := w'.onboard, waitingAt := w'.waitingAt,
                wantOffAt := w'.wantOffAt, arrive := w'.arrive, space := w'.space)
    && w'.people == w.people[i := w.people[i].(pc := pc)] && |w'.arrive| == |w.arrive|
    && MovesCounts(w, w', w.people[i], pc) && MovesLock(w, w', i, pc) && MovesDoors(w, w.people[i], pc)
  }

  ghost predicate MovesCounts(w: World, w': World, p: Person, pc: PersonPc)
    requires Formed(w) && 1 <= p.at <= w.floors && 1 <= p.to <= w.floors
  {
    && w'.onboard == w.onboard - Unit(IsAboard(p.pc)) + Unit(IsAboard(pc))
    && w'.waitingAt == w.waitingAt[p.at := w.waitingAt[p.at] - Unit(IsWaiting(p.pc)) + Unit(IsWaiting(pc))]
    && w'.wantOffAt == w.wantOffAt[p.to := w.wantOffAt[p.to] - Unit(IsBound(p.pc)) + Unit(IsBound(pc))]
    && (!HasLock(p.pc) ==> w'.onboard == w.onboard && w'.waitingAt == w.waitingAt && w'.wantOffAt == w.wantOffAt)
  }

  ghost predicate MovesLock(w: World, w': World, i: nat, pc: PersonPc)
    requires i < |w.people|
  {
    && w'.lock == (if HasLock(pc) then Some(Passenger(i)) else if HasLock(w.people[i].pc) then None else w.lock)
    && (HasLock(pc) && !HasLock(w.people[i].pc) ==> w.lock.None?)
  }

  ghost predicate MovesDoors(w: World, p: Person, pc: PersonPc) {
    && (pc.Board1? ==> MayBoard(w, p)) && (IsAboard(pc) && !IsAboard(p.pc) ==> p.pc.Board1?)
    && (pc.Board2? ==> p.pc.Board1?) && (pc.Board3? ==> p.pc.Board2?) && (pc.Board4? ==> p.pc.Board3?)
    && (pc.Leave1? ==> MayLeave(w, p))
    && (pc.Leave2? ==> p.pc.Leave1?) && (pc.Leave3? ==> p.pc.Leave2?) && (pc.Leave4? ==> p.pc.Leave3?)
  }

  lemma CountsMatch(w: World, w': World, i: nat)
    requires Formed(w) && PersonEnabled(w, i) && w' == PersonNext(w, i)
    ensures MovesCounts(w, w', w.people[i], NextPc(w, w.people[i]))
  {
    assert 1 <= w.people[i].at <= w.floors && 1 <= w.people[i].to <= w.floors;
    var p := w.people[i];
    assert w.waitingAt == w.waitingAt[p.at := w.waitingAt[p.at]] && w.wantOffAt == w.wantOffAt[p.to := w.wantOffAt[p.to]];
  }

  lemma LockMatches(w: World, w': World, i: nat)
    requires Formed(w) && PersonEnabled(w, i) && w' == PersonNext(w, i)
    ensures MovesLock(w, w', i, NextPc(w, w.people[i])) && MovesDoors(w, w.people[i], NextPc(w, w.people[i]))
  {
    hide Formed;
  }

  lemma PersonMoves(w: World, i: nat)
    requires Formed(w) && PersonEnabled(w, i)
    ensures Moves(w, PersonNext(w, i), i, NextPc(w, w.people[i]))
  {
    hide NextPc, MovesCounts, MovesLock, MovesDoors, HasLock;
    CountsMatch(w, PersonNext(w, i), i);
    LockMatches(w, PersonNext(w, i), i);
  }

  lemma PersonCounts(w: World, w': World, i: nat, pc: PersonPc)
    requires Formed(w) && Counts(w) && i < |w.people| && Moves(w, w', i, pc)
    ensures Formed(w') && Counts(w')
  {
    hide Counts, MovesLock, MovesDoors;
    CountsMove(w, w', i, pc);
  }

  lemma PersonHolders(w: World, w': World, i: nat, pc: PersonPc)
    requires Formed(w) && Holders(w) && i < |w.people| && Moves(w, w', i, pc)
    ensures Holders(w')
  {
    hide HasLock, LiftHasLock, MovesCounts, MovesDoors, Formed;
    assert HasLock(w.people[i].pc) <==> w.lock == Some(Passenger(i));
  }

  lemma PersonDoors(w: World, w': World, i: nat, pc: PersonPc)
    requires Formed(w) && Holders(w) && i < |w.people| && Moves(w, w', i, pc)
    requires w.onboard <= CAPACITY && forall j :: 0 <= j < |w.people| ==> AtDoor(w, w.people[j])
    ensures w'.onboard <= CAPACITY && forall j :: 0 <= j < |w'.people| ==> AtDoor(w', w'.people[j])
  {
    assert AtDoor(w, w.people[i]);
    forall j | 0 <= j < |w'.people|
      ensures AtDoor(w', w'.people[j])
    {
      assert AtDoor(w, w.people[j]);
      assert j != i && HasLock(w.people[j].pc) ==> !HasLock(w.people[i].pc);
    }
  }

  lemma PersonScanned(w: World, w': World, i: nat, pc: PersonPc)
    requires Formed(w) && Holders(w) && Scanned(w) && i < |w.people| && Moves(w, w', i, pc) && Formed(w')
    ensures Scanned(w')
  {
    hide MovesLock, MovesDoors, Formed;
    if LiftHasLock(w.lift) {
      assert !HasLock(w.people[i].pc);
    }
  }

  lemma PersonKeeps(w: World, i: nat)
    requires Inv(w) && PersonEnabled(w, i)
    ensures Inv(PersonNext(w, i))
  {
    hide Formed, Holders, Counts, Scanned, AtDoor, Moves, PersonNext, NextPc;
    var w', pc := PersonNext(w, i), NextPc(w, w.people[i]);
    PersonMoves(w, i);
    PersonCounts(w, w', i, pc);
    PersonHolders(w, w', i, pc);
    PersonDoors(w, w', i, pc);
    PersonScanned(w, w', i, pc);
  }

  /** While the lift has the lock nobody is at the door. */
  lemma LiftDoors(w: World, w': World)
    requires Formed(w) && Holders(w) && w'.people == w.people && w'.onboard == w.onboard
    requires LiftHasLock(w.lift) || (w'.floor == w.floor && w'.doorsOpen == w.doorsOpen)
    requires forall j :: 0 <= j < |w.people| ==> AtDoor(w, w.people[j])
    ensures forall j :: 0 <= j < |w'.people| ==> AtDoor(w', w'.people[j])
  {
    hide Formed;
    forall j | 0 <= j < |w'.people|
      ensures AtDoor(w', w'.people[j])
    {
      assert AtDoor(w, w.people[j]);
      assert LiftHasLock(w.lift) ==> !HasLock(w.people[j].pc);
    }
  }

  lemma LiftFormed(w: World)
    requires Formed(w) && LiftEnabled(w)
    ensures Formed(LiftNext(w)) && (LiftHasLock(w.lift) || (LiftNext(w).floor == w.floor && LiftNext(w).doorsOpen == w.doorsOpen))
  {
    hide LiftNextPc;
  }

  lemma LiftHolders(w: World)
    requires Formed(w) && Holders(w) && LiftEnabled(w)
    ensures Holders(LiftNext(w))
  {
    assert LiftHasLock(LiftNextPc(w)) && !LiftHasLock(w.lift) ==> w.lock.None?;
    hide LiftNextPc, LiftHasLock, HasLock;
  }

  lemma LiftScanned(w: World)
    requires Formed(w) && Scanned(w) && LiftEnabled(w) && Formed(LiftNext(w))
    ensures Scanned(LiftNext(w))
  {
    assert 1 <= w.floor <= w.floors;
    hide Formed;
  }

  lemma LiftKeeps(w: World)
    requires Inv(w) && LiftEnabled(w)
    ensures Inv(LiftNext(w))
  {
    hide Formed, Holders, Scanned, AtDoor, LiftNextPc;
    LiftFormed(w);
    LiftHolders(w);
    LiftScanned(w);
    LiftDoors(w, LiftNext(w));
  }

  lemma ArrivalKeeps(w: World, at: int, to: int)
    requires Inv(w)
    ensures Inv(Next(w, Arrives(at, to)))
  {
    hide Count;
    var p := Person(Clamp(w, at), Clamp(w, to), Start);
    var w' := w.(people := w.people + [p]);
    CountAppend(w.people, p, Aboard());
    forall f | 1 <= f <= w.floors
      ensures w'.waitingAt[f] == Count(w'.people, Waiting(f)) && w'.wantOffAt[f] == Count(w'.people, Bound(f))
    {
      CountAppend(w.people, p, Waiting(f));
      CountAppend(w.people, p, Bound(f));
    }
    assert forall j :: 0 <= j < |w.people| ==> w'.people[j] == w.people[j];
  }

  lemma StepKeeps(w: World, s: Step)
    requires Inv(w) && Enabled(w, s)
    ensures Inv(Next(w, s))
  {
    match s
    case PersonStep(i) => PersonKeeps(w, i);
    case LiftStep => LiftKeeps(w);
    case Arrives(at, to) => ArrivalKeeps(w, at, to);
    case SpawnerDone =>
  }

  // ---------------------------------------------------------------- every run

  ghost predicate IsRun(run: seq<World>, steps: seq<Step>, floors: nat, spawning: bool) {
    && 2 <= floors && |run| == |steps| + 1 && run[0] == Init(floors, spawning)
    && forall k :: 0 <= k < |steps| ==> Formed(run[k]) && Enabled(run[k], steps[k]) && run[k + 1] == Next(run[k], steps[k])
  }

  lemma {:induction false} RunKeeps(run: seq<World>, steps: seq<Step>, floors: nat, spawning: bool, k: nat)
    requires IsRun(run, steps, floors, spawning) && k < |run|
    ensures Inv(run[k])
  {
    if k > 0 {
      RunKeeps(run, steps, floors, spawning, k - 1);
      StepKeeps(run[k - 1], steps[k - 1]);
    }
  }

  /** The people bound for some floor up to n, counted floor by floor. */
  function BoundUpTo(ps: seq<Person>, n: nat): nat {
    if n == 0 then 0 else BoundUpTo(ps, n - 1) + Count(ps, Bound(n))
  }

  lemma {:induction false} BoundUpToCons(ps: seq<Person>, n: nat)
    requires ps != [] && ps[0].to >= 1
    ensures BoundUpTo(ps, n) == Unit(IsBound(ps[0].pc) && ps[0].to <= n) + BoundUpTo(ps[1..], n)
  {
    if n > 0 { BoundUpToCons(ps, n - 1); }
  }

  lemma {:induction false} FloorByFloor(ps: seq<Person>, n: nat)
    requires forall i :: 0 <= i < |ps| ==> 1 <= ps[i].to <= n
    ensures BoundUpTo(ps, n) == Count(ps, (p: Person) => IsBound(p.pc))
  {
    if ps == [] {
      NobodyBound(n);
    } else {
      BoundUpToCons(ps, n);
      FloorByFloor(ps[1..], n);
    }
  }

  lemma {:induction false} NobodyBound(n: nat)
    ensures BoundUpTo([], n) == 0
  {
    if n > 0 { NobodyBound(n - 1); }
  }

  lemma {:induction false} CountSame(ps: seq<Person>, f: Person -> bool, g: Person -> bool)
    requires forall i :: 0 <= i < |ps| ==> f(ps[i]) == g(ps[i])
    ensures Count(ps, f) == Count(ps, g)
  {
    if ps != [] { CountSame(ps[1..], f, g); }
  }

  /** Outside the critical sections: registered and not aboard, and aboard. */
  predicate Expecting(pc: PersonPc) { pc.AwaitLift? || pc.WantBoard? || pc.AwaitSpace? }

  predicate Riding(pc: PersonPc) { pc.AwaitFloor? || pc.WantLeave? }

  function SumFloors(s: seq<int>, n: nat): int
    requires n < |s|
  {
    if n == 0 then 0 else SumFloors(s, n - 1) + s[n]
  }

  lemma {:induction false} SumIsBoundUpTo(w: World, n: nat)
    requires Formed(w) && Counts(w) && n <= w.floors
    ensures SumFloors(w.wantOffAt, n) == BoundUpTo(w.people, n)
  {
    if n > 0 { SumIsBoundUpTo(w, n - 1); }
  }

  /** Whenever the lock is free, waitingAt counts the people registered and not aboard,
      wantOffAt the riders bound for each floor, and the riders, no more than five, are
      just those of all floors. */
  lemma Ledger(run: seq<World>, steps: seq<Step>, floors: nat, spawning: bool, k: nat, f: nat)
    requires IsRun(run, steps, floors, spawning) && k < |run| && run[k].lock.None? && 1 <= f <= run[k].floors
    ensures Formed(run[k])
    ensures run[k].waitingAt[f] == Count(run[k].people, (p: Person) => p.at == f && Expecting(p.pc))
    ensures run[k].wantOffAt[f] == Count(run[k].people, (p: Person) => p.to == f && Riding(p.pc))
    ensures run[k].onboard == Count(run[k].people, (p: Person) => Riding(p.pc)) == SumFloors(run[k].wantOffAt, run[k].floors)
    ensures 0 <= run[k].onboard <= CAPACITY
  {
    RunKeeps(run, steps, floors, spawning, k);
    var w := run[k];
    LedgerFree(w, f);
    hide Inv, IsRun;
  }

  lemma LedgerFree(w: World, f: nat)
    requires Inv(w) && w.lock.None? && 1 <= f <= w.floors
    ensures w.waitingAt[f] == Count(w.people, (p: Person) => p.at == f && Expecting(p.pc))
    ensures w.wantOffAt[f] == Count(w.people, (p: Person) => p.to == f && Riding(p.pc))
    ensures w.onboard == Count(w.people, (p: Person) => Riding(p.pc)) == SumFloors(w.wantOffAt, w.floors)
    ensures 0 <= w.onboard <= CAPACITY
  {
    assert forall i :: 0 <= i < |w.people| ==> !HasLock(w.people[i].pc);
    CountSame(w.people, Waiting(f), (p: Person) => p.at == f && Expecting(p.pc));
    CountSame(w.people, Bound(f), (p: Person) => p.to == f && Riding(p.pc));
    CountSame(w.people, Aboard(), (p: Person) => Riding(p.pc));
    CountSame(w.people, (p: Person) => IsBound(p.pc), (p: Person) => Riding(p.pc));
    SumIsBoundUpTo(w, w.floors);
    FloorByFloor(w.people, w.floors);
  }

  /** People get in and out only while the lift stands at their floor with its doors open, and
      get in only if there is room. */
  lemma OnlyAtTheDoor(run: seq<World>, steps: seq<Step>, floors: nat, spawning: bool, k: nat, i: nat)
    requires IsRun(run, steps, floors, spawning) && k < |run| && i < |run[k].people|
    ensures var w, p := run[k], run[k].people[i];
            && (p.pc.Board1? ==> w.doorsOpen && w.floor == p.at && w.onboard < CAPACITY)
            && (p.pc.Leave1? ==> w.doorsOpen && w.floor == p.to)
  {
    RunKeeps(run, steps, floors, spawning, k);
    assert AtDoor(run[k], run[k].people[i]);
  }

  /** When the lift decides to shut down, everybody has left or has not yet registered. */
  lemma NobodyForgotten(run: seq<World>, steps: seq<Step>, floors: nat, spawning: bool, k: nat, i: nat)
    requires IsRun(run, steps, floors, spawning) && k < |run| && run[k].lift == Close2(true) && i < |run[k].people|
    ensures run[k].people[i].pc.Left? || run[k].people[i].pc.Start?
  {
    RunKeeps(run, steps, floors, spawning, k);
    var w := run[k];
    var p := w.people[i];
    assert !HasLock(p.pc) && 1 <= p.at <= w.floors && 1 <= p.to <= w.floors;
    assert w.waitingAt[p.at] <= 0 && w.wantOffAt[p.to] <= 0;
    hide IsRun;
    CountNone(w.people, Waiting(p.at), i);
    CountNone(w.people, Bound(p.to), i);
    CountNone(w.people, Aboard(), i);
  }
}
