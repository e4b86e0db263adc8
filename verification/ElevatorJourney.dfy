/** Journeys by lift (threads/threadtest.cc): whoever has left got in at their own floor and out at
    the one they wanted, and from any floor to any floor there is a run that takes a person there. */
module ElevatorJourneys {
  import opened Common
  import opened ElevatorProtocol
  import opened ElevatorShutdown
  import opened ElevatorRounds

  // ---------------------------------------------------------------- who has left has travelled

  /** Not yet in the lift, in it, out of it again. */
  function Stage(pc: PersonPc): nat {
    match pc
    case Board2 => 1 case Board3 => 1 case Board4 => 1 case AwaitFloor => 1 case WantLeave => 1 case TestLeave => 1
    case NoLeave => 1 case Leave1 => 1
    case Leave2 => 2 case Leave3 => 2 case Leave4 => 2 case Left => 2
    case _ => 0
  }

  /** At step n the person gets in: the doors are open at the person's floor, and there is room. */
  ghost predicate GetsIn(run: seq<World>, steps: seq<Step>, i: nat, n: nat, at: nat)
    requires |run| == |steps| + 1
  {
    && n < |steps| && steps[n] == PersonStep(i) && i < |run[n].people| && run[n].people[i].pc.Board1?
    && run[n].doorsOpen && run[n].floor == at && run[n].onboard < CAPACITY
  }

  ghost predicate GetsOut(run: seq<World>, steps: seq<Step>, i: nat, n: nat, to: nat)
    requires |run| == |steps| + 1
  {
    && n < |steps| && steps[n] == PersonStep(i) && i < |run[n].people| && run[n].people[i].pc.Leave1?
    && run[n].doorsOpen && run[n].floor == to
  }

  lemma StageStep(w: World, s: Step, i: nat)
    requires Formed(w) && Enabled(w, s) && i < |Next(w, s).people|
    ensures var q := Next(w, s).people[i];
            if i >= |w.people| then Stage(q.pc) == 0
            else
              var p := w.people[i];
              && q.at == p.at && q.to == p.to
              && (Stage(q.pc) == Stage(p.pc)
                  || (s == PersonStep(i) && ((p.pc.Board1? && Stage(q.pc) == 1) || (p.pc.Leave1? && Stage(q.pc) == 2))))
  {
    hide Formed, LiftNextPc, NextFloor, Wake, Plus;
  }

  /** Whoever is in the lift got in at their own floor; whoever is out of it again got in there before
      and got out at the floor they wanted. */
  lemma {:induction false} HasTravelled(run: seq<World>, steps: seq<Step>, floors: nat, spawning: bool, k: nat, i: nat)
    requires IsRun(run, steps, floors, spawning) && k < |run| && i < |run[k].people|
    ensures var p := run[k].people[i];
            && (Stage(p.pc) == 1 ==> exists a :: 0 <= a < k && GetsIn(run, steps, i, a, p.at))
            && (Stage(p.pc) == 2 ==> exists a, b :: 0 <= a < b < k && GetsIn(run, steps, i, a, p.at) && GetsOut(run, steps, i, b, p.to))
  {
    hide Formed, Enabled, Next, Stage, GetsIn, GetsOut;
    if k > 0 {
      var h := k - 1;
      assert Formed(run[h]) && Enabled(run[h], steps[h]) && run[h + 1] == Next(run[h], steps[h]);
      StageStep(run[h], steps[h], i);
      if i < |run[h].people| {
        HasTravelled(run, steps, floors, spawning, h, i);
        OnlyAtTheDoor(run, steps, floors, spawning, h, i);
        AtTheDoor(run, steps, i, h);
        FirstStage();
      }
    }
  }

  lemma FirstStage()
    ensures Stage(Board1) == 0 && Stage(Leave1) == 1
  {
  }

  lemma AtTheDoor(run: seq<World>, steps: seq<Step>, i: nat, n: nat)
    requires |run| == |steps| + 1 && n < |steps| && i < |run[n].people|
    requires var w, p := run[n], run[n].people[i];
             && (p.pc.Board1? ==> w.doorsOpen && w.floor == p.at && w.onboard < CAPACITY)
             && (p.pc.Leave1? ==> w.doorsOpen && w.floor == p.to)
    ensures steps[n] == PersonStep(i) && run[n].people[i].pc.Board1? ==> GetsIn(run, steps, i, n, run[n].people[i].at)
    ensures steps[n] == PersonStep(i) && run[n].people[i].pc.Leave1? ==> GetsOut(run, steps, i, n, run[n].people[i].to)
  {
  }

  // ---------------------------------------------------------------- the lift goes its round

  /** Nobody else takes a step. */
  ghost predicate LiftOrPerson(steps: seq<Step>) {
    forall k :: 0 <= k < |steps| ==> steps[k] == LiftStep || steps[k] == PersonStep(0)
  }

  /** One person in the building, who does not have the lock, and a lift that does not stop. */
  ghost predicate Alone(w: World, p: Person) {
    Inv(w) && w.people == [p] && !HasLock(p.pc) && w.spawning && !w.lift.Stopped? && w.lift != Close2(true)
  }

  /** How far the lift is on its round. */
  function Position(pc: LiftPc): nat {
    match pc
    case WantGo => 0 case Go1 => 1 case Go2 => 2 case Travel => 3 case WantOpen => 4 case Open1 => 5
    case WakeWaiting(_) => 6 case GiveWaiting(_, _) => 6 case WakeRiders(_) => 7 case GiveRiders(_, _) => 7
    case Advertise(_) => 8 case Open2 => 9 case Dwell => 10
    case WantClose => 11 case Close1 => 12 case Scan(_, _) => 13 case Close2(_) => 14 case Stopped => 15
  }

  function Loop(x: nat, n: int, inside: bool): nat {
    if x < n then 2 * (n - x) + Unit(!inside) else Unit(!inside) + if inside then 2 else 0
  }

  /** How many turns of a loop are left. */
  function Rest(w: World): nat
    requires Formed(w)
  {
    match w.lift
    case WakeWaiting(x) => Loop(x, w.waitingAt[w.floor], false)
    case GiveWaiting(x, _) => Loop(x, w.waitingAt[w.floor], true)
    case WakeRiders(x) => Loop(x, w.wantOffAt[w.floor], false)
    case GiveRiders(x, _) => Loop(x, w.wantOffAt[w.floor], true)
    case Advertise(x) => if x < CAPACITY then CAPACITY - x else 0
    case Scan(f, _) => if f <= w.floors then w.floors + 1 - f else 0
    case _ => 0
  }

  /** Who waits at this floor or is bound for it has been woken by the time the doors are open. */
  ghost predicate Rung(w: World)
    requires Formed(w)
  {
    var waiting, riding, units := w.waitingAt[w.floor], w.wantOffAt[w.floor], w.arrive[w.floor];
    match w.lift
    case WakeWaiting(x) => x > 0 ==> units > 0
    case GiveWaiting(x, f) => f == w.floor && (x > 0 ==> units > 0)
    case WakeRiders(x) => waiting > 0 || x > 0 ==> units > 0
    case GiveRiders(x, f) => f == w.floor && (waiting > 0 || x > 0 ==> units > 0)
    case Advertise(_) => waiting > 0 || riding > 0 ==> units > 0
    case Open2 => waiting > 0 || riding > 0 ==> units > 0
    case Dwell => waiting > 0 || riding > 0 ==> units > 0
    case _ => true
  }

  /** The lift is on its way from stop number n to the next, or there. */
  ghost predicate OnRound(w: World, n: nat) {
    && AtStop(w, if Position(w.lift) <= 1 then n else n + 1)
    && (6 <= Position(w.lift) <= 12 ==> w.doorsOpen)
  }

  lemma MayGoOn(w: World, p: Person)
    requires Alone(w, p)
    ensures LiftEnabled(w) && Formed(w)
  {
    LockIsFree(w, p);
  }

  lemma LockIsFree(w: World, p: Person)
    requires Inv(w) && w.people == [p]
    ensures w.lock == if LiftHasLock(w.lift) then Some(Lift) else if HasLock(p.pc) then Some(Passenger(0)) else None
  {
    assert HasLock(w.people[0].pc) <==> w.lock == Some(Passenger(0));
    assert w.lock.Some? && w.lock.value.Passenger? ==> w.lock.value == Passenger(0);
  }

  lemma Advances(w: World)
    requires Formed(w) && LiftEnabled(w) && w.spawning && !w.lift.Stopped? && w.lift != Close2(true) && Formed(LiftNext(w))
    ensures var w' := LiftNext(w);
            && w'.people == w.people && w'.spawning && !w'.lift.Stopped? && w'.lift != Close2(true)
            && (Position(w'.lift) == Position(w.lift) + 1
                || (Position(w'.lift) == Position(w.lift) && Rest(w') < Rest(w))
                || (w.lift.Close2? && w'.lift.WantGo?))
  {
    assert 1 <= w.floor <= w.floors;
    hide Formed, NextFloor, Wake;
  }

  lemma KeepsRound(w: World, n: nat)
    requires Formed(w) && LiftEnabled(w) && OnRound(w, n) && !w.lift.Close2?
    ensures OnRound(LiftNext(w), n)
  {
    hide Formed, Wake, Stop, NextFloor;
    if w.lift.Go1? { GoesToNext(w, n); }
  }

  lemma RoundAgain(w: World, n: nat)
    requires Formed(w) && OnRound(w, n) && w.lift == Close2(false)
    ensures OnRound(LiftNext(w), n + 1) && LiftNext(w).lift.WantGo?
  {
    hide Formed, Wake, Stop, NextFloor;
  }

  lemma KeepsRung(w: World)
    requires Formed(w) && LiftEnabled(w) && Rung(w) && Formed(LiftNext(w)) && Position(w.lift) < 10
    ensures Rung(LiftNext(w))
  {
    assert 1 <= w.floor <= w.floors && |w.arrive| == w.floors + 1;
    hide Formed, NextFloor;
  }

  lemma OneOn(w: World, p: Person)
    requires Alone(w, p)
    ensures LiftEnabled(w) && Formed(w) && Formed(LiftNext(w)) && Alone(LiftNext(w), p)
    ensures var w' := LiftNext(w);
            || Position(w'.lift) == Position(w.lift) + 1
            || (Position(w'.lift) == Position(w.lift) && Rest(w') < Rest(w))
            || (w.lift.Close2? && w'.lift.WantGo?)
  {
    MayGoOn(w, p);
    LiftKeeps(w);
    Advances(w);
    hide LiftNext, Position, Rest;
  }

  /** It comes to the next stop, opens its doors, and dwells. */
  lemma {:induction false} ReachesStop(w: World, p: Person, n: nat) returns (run: seq<World>, steps: seq<Step>)
    requires Alone(w, p) && Formed(w) && Rung(w) && OnRound(w, n) && Position(w.lift) <= 10
    ensures Leads(run, steps) && |run| == |steps| + 1 && run[0] == w && LiftOrPerson(steps)
    ensures var w' := run[|steps|];
            Alone(w', p) && Formed(w') && Rung(w') && OnRound(w', n) && w'.lift.Dwell?
    decreases 10 - Position(w.lift), Rest(w)
  {
    hide Alone, Formed, Rung, OnRound, LiftNext, Rest, Leads, LiftEnabled;
    if w.lift.Dwell? {
      run, steps := [w], [];
      Nowhere(w);
    } else {
      OneOn(w, p);
      KeepsRung(w);
      KeepsRound(w, n);
      var run', steps' := ReachesStop(LiftNext(w), p, n);
      run, steps := [w] + run', [LiftStep] + steps';
      Prepend(w, LiftStep, run', steps');
    }
  }

  lemma Nowhere(w: World)
    ensures Leads([w], [])
  {
  }

  /** From there it closes its doors and sets out again. */
  lemma {:induction false} SetsOut(w: World, p: Person, n: nat) returns (run: seq<World>, steps: seq<Step>)
    requires Alone(w, p) && Formed(w) && OnRound(w, n) && Position(w.lift) >= 10
    ensures Leads(run, steps) && |run| == |steps| + 1 && run[0] == w && LiftOrPerson(steps)
    ensures var w' := run[|steps|];
            Alone(w', p) && Formed(w') && OnRound(w', n + 1) && w'.lift.WantGo?
    decreases 15 - Position(w.lift), Rest(w)
  {
    hide Formed, Rung, OnRound, LiftNext, Rest, Leads, LiftEnabled, Inv;
    OneOn(w, p);
    if w.lift.Close2? {
      run, steps := [w, LiftNext(w)], [LiftStep];
      RoundAgain(w, n);
      Nowhere(LiftNext(w));
      Prepend(w, LiftStep, [LiftNext(w)], []);
      assert [w] + [LiftNext(w)] == run && [LiftStep] + [] == steps;
    } else {
      KeepsRound(w, n);
      var run', steps' := SetsOut(LiftNext(w), p, n);
      run, steps := [w] + run', [LiftStep] + steps';
      Prepend(w, LiftStep, run', steps');
    }
  }

  /** It comes to any later stop. */
  lemma {:induction false} ReachesLater(w: World, p: Person, n: nat, i: nat) returns (run: seq<World>, steps: seq<Step>)
    requires Alone(w, p) && Formed(w) && OnRound(w, n) && w.lift.WantGo? && n < i
    ensures Leads(run, steps) && |run| == |steps| + 1 && run[0] == w && LiftOrPerson(steps)
    ensures var w' := run[|steps|];
            Alone(w', p) && Formed(w') && Rung(w') && OnRound(w', i - 1) && w'.lift.Dwell?
    decreases i - n
  {
    hide Alone, Formed, OnRound, Leads;
    run, steps := ReachesStop(w, p, n);
    if n + 1 < i {
      var run1, steps1 := SetsOut(run[|steps|], p, n);
      Chain(run, steps, run1, steps1);
      run, steps := run + run1[1..], steps + steps1;
      var run2, steps2 := ReachesLater(run[|steps|], p, n + 1, i);
      Chain(run, steps, run2, steps2);
      run, steps := run + run2[1..], steps + steps2;
    }
  }

  // ---------------------------------------------------------------- the person walks

  /** How many steps a person is from the next place to wait, or from having left. */
  function ToWalk(pc: PersonPc): nat {
    match pc
    case Start => 3 case Register1 => 2 case Register2 => 1
    case AwaitLift => 7 case WantBoard => 6 case TestBoard => 5 case Board1 => 4 case Board2 => 3 case Board3 => 2 case Board4 => 1
    case AwaitFloor => 7 case WantLeave => 6 case TestLeave => 5 case Leave1 => 4 case Leave2 => 3 case Leave3 => 2 case Leave4 => 1
    case _ => 0
  }

  /** The way from one place to wait to the next. */
  predicate OnTheWayTo(pc: PersonPc, goal: PersonPc) {
    match goal
    case AwaitLift => pc.Start? || pc.Register1? || pc.Register2?
    case AwaitFloor =>
      pc.AwaitLift? || pc.WantBoard? || pc.TestBoard? || pc.Board1? || pc.Board2? || pc.Board3? || pc.Board4?
    case Left =>
      pc.AwaitFloor? || pc.WantLeave? || pc.TestLeave? || pc.Leave1? || pc.Leave2? || pc.Leave3? || pc.Leave4?
    case _ => false
  }

  /** One person, and the lift at rest: with its doors open at the right floor, where the person is to
      get in or out, and a unit for the person if they have to wait for it. */
  ghost predicate Stands(w: World, p: Person, goal: PersonPc) {
    && Inv(w) && Formed(w) && w.people == [p] && !LiftHasLock(w.lift) && OnTheWayTo(p.pc, goal)
    && (goal.AwaitFloor? ==> w.doorsOpen && w.floor == p.at && (p.pc.AwaitLift? ==> w.arrive[w.floor] > 0))
    && (goal.Left? ==> w.doorsOpen && w.floor == p.to && (p.pc.AwaitFloor? ==> w.arrive[w.floor] > 0))
  }

  /** What a person alone does not change. */
  ghost predicate SameLift(w: World, w': World) {
    && w'.lift == w.lift && w'.floor == w.floor && w'.floors == w.floors && w'.dir == w.dir && w'.doorsOpen == w.doorsOpen
    && w'.spawning == w.spawning
  }

  lemma RoomForOne(w: World, p: Person)
    requires Inv(w) && w.people == [p] && !IsAboard(p.pc)
    ensures w.onboard == 0
  {
    assert [p][1..] == [];
    assert Count([p], Aboard()) == 0;
  }

  lemma PersonOn(w: World, p: Person, goal: PersonPc)
    requires Stands(w, p, goal)
    ensures PersonEnabled(w, 0)
    ensures var w', p' := PersonNext(w, 0), p.(pc := NextPc(w, p));
            && w'.people == [p'] && SameLift(w, w') && Inv(w') && Formed(w')
            && (p'.pc == goal || (Stands(w', p', goal) && ToWalk(p'.pc) < ToWalk(p.pc)))
  {
    LockIsFree(w, p);
    if p.pc.TestBoard? { RoomForOne(w, p); }
    PersonKeeps(w, 0);
    hide Inv, Formed, Plus;
  }

  /** The person gets from one place to wait to the next, or out. */
  lemma {:induction false} Walks(w: World, p: Person, goal: PersonPc) returns (run: seq<World>, steps: seq<Step>)
    requires Stands(w, p, goal)
    ensures Leads(run, steps) && |run| == |steps| + 1 && run[0] == w && LiftOrPerson(steps)
    ensures var w' := run[|steps|];
            Inv(w') && Formed(w') && w'.people == [p.(pc := goal)] && SameLift(w, w')
    decreases ToWalk(p.pc)
  {
    PersonOn(w, p, goal);
    hide Stands, Inv, Formed, PersonNext, NextPc, ToWalk, Leads, PersonEnabled;
    var w' := PersonNext(w, 0);
    var p' := p.(pc := NextPc(w, p));
    StandsFormed(w, p, goal);
    var run', steps' := [w'], [];
    if p'.pc == goal {
      Nowhere(w');
    } else {
      run', steps' := Walks(w', p', goal);
    }
    run, steps := [w] + run', [PersonStep(0)] + steps';
    Prepend(w, PersonStep(0), run', steps');
  }

  lemma StandsFormed(w: World, p: Person, goal: PersonPc)
    requires Stands(w, p, goal)
    ensures Formed(w)
  {
  }

  // ---------------------------------------------------------------- a journey

  lemma Comes(floors: nat, at: nat, to: nat)
    requires 2 <= floors && 1 <= at <= floors && 1 <= to <= floors
    ensures var w := Init(floors, true);
            && Formed(w) && Enabled(w, Arrives(at, to))
            && var w' := Next(w, Arrives(at, to));
               Stands(w', Person(at, to, Start), AwaitLift) && OnRound(w', 0) && w'.lift.WantGo? && w'.spawning
  {
    var w := Init(floors, true);
    assert Inv(w);
    ArrivalKeeps(w, at, to);
    FirstInTurn(floors, true);
    hide Inv;
  }

  /** At the stop, with a unit for the person who waits there or is bound for there. */
  lemma Arrived(w: World, p: Person, i: nat)
    requires i > 0 && Alone(w, p) && Formed(w) && Rung(w) && OnRound(w, i - 1) && w.lift.Dwell?
    ensures Stop(w.floors, i) == p.at && p.pc.AwaitLift? ==> Stands(w, p, AwaitFloor)
    ensures Stop(w.floors, i) == p.to && p.pc.AwaitFloor? ==> Stands(w, p, Left)
  {
    CountedAt(w, p);
    hide Inv, Stop;
  }

  lemma CountedAt(w: World, p: Person)
    requires Inv(w) && w.people == [p]
    ensures p.pc.AwaitLift? ==> w.waitingAt[p.at] > 0
    ensures p.pc.AwaitFloor? ==> w.wantOffAt[p.to] > 0
    ensures 1 <= p.at <= w.floors && 1 <= p.to <= w.floors
  {
    assert w.people[0] == p && [p][1..] == [];
    assert Count([p], Waiting(p.at)) == Unit(IsWaiting(p.pc));
    assert Count([p], Bound(p.to)) == Unit(IsBound(p.pc));
  }

  lemma StillOnRound(w: World, w': World, n: nat)
    requires OnRound(w, n) && SameLift(w, w')
    ensures OnRound(w', n)
  {
  }

  lemma Rests(w: World, w': World, p: Person, p': Person, n: nat)
    requires OnRound(w, n) && SameLift(w, w') && Inv(w') && Formed(w') && w'.people == [p'] && !HasLock(p'.pc)
    requires w.spawning && (w.lift.Dwell? || w.lift.WantGo?)
    ensures Alone(w', p') && OnRound(w', n) && w'.floors == w.floors
  {
    StillOnRound(w, w', n);
  }

  lemma KnownFloors(w: World, p: Person)
    requires Alone(w, p)
    ensures 2 <= w.floors && 1 <= p.at <= w.floors && 1 <= p.to <= w.floors && w.spawning
  {
    assert w.people[0] == p;
  }

  /** Somebody who waits for the lift gets in. */
  lemma GetsAboard(w: World, p: Person) returns (run: seq<World>, steps: seq<Step>, n: nat)
    requires Alone(w, p) && Formed(w) && OnRound(w, 0) && w.lift.WantGo? && p.pc.AwaitLift?
    ensures Leads(run, steps) && |run| == |steps| + 1 && run[0] == w && LiftOrPerson(steps)
    ensures var w' := run[|steps|];
            Alone(w', p.(pc := AwaitFloor)) && Formed(w') && OnRound(w', n) && w'.lift.Dwell?
  {
    hide Alone, Formed, OnRound, Leads, Inv, Rung, Stop;
    KnownFloors(w, p);
    var i := ComesBy(w.floors, 1, p.at);
    run, steps := ReachesLater(w, p, 0, i);
    var e := run[|steps|];
    KeptFloors(run, steps);
    Arrived(e, p, i);
    KnownFloors(e, p);
    var run1, steps1 := Walks(e, p, AwaitFloor);
    Rests(e, run1[|steps1|], p, p.(pc := AwaitFloor), i - 1);
    Chain(run, steps, run1, steps1);
    run, steps, n := run + run1[1..], steps + steps1, i - 1;
  }

  /** Somebody who is in the lift gets out. */
  lemma RidesOut(w: World, p: Person, n: nat) returns (run: seq<World>, steps: seq<Step>)
    requires Alone(w, p) && Formed(w) && OnRound(w, n) && w.lift.Dwell? && p.pc.AwaitFloor?
    ensures Leads(run, steps) && |run| == |steps| + 1 && run[0] == w && LiftOrPerson(steps)
    ensures run[|steps|].people == [p.(pc := Left)] && run[|steps|].lift.Dwell?
  {
    hide Alone, Formed, OnRound, Leads, Inv, Rung, Stop;
    KnownFloors(w, p);
    run, steps := SetsOut(w, p, n);
    var i := ComesBy(w.floors, n + 2, p.to);
    var run1, steps1 := ReachesLater(run[|steps|], p, n + 1, i);
    Chain(run, steps, run1, steps1);
    run, steps := run + run1[1..], steps + steps1;
    KeptFloors(run, steps);
    Arrived(run[|steps|], p, i);
    var run2, steps2 := Walks(run[|steps|], p, Left);
    Chain(run, steps, run2, steps2);
    run, steps := run + run2[1..], steps + steps2;
  }

  lemma {:induction false} KeptFloors(run: seq<World>, steps: seq<Step>)
    requires Leads(run, steps)
    ensures run[|steps|].floors == run[0].floors
    decreases |steps|
  {
    hide Formed, Enabled, Next;
    if steps != [] {
      var n := |steps| - 1;
      assert Leads(run[..n + 1], steps[..n]);
      KeptFloors(run[..n + 1], steps[..n]);
      assert Formed(run[n]) && Enabled(run[n], steps[n]) && run[n + 1] == Next(run[n], steps[n]);
      StepFloors(run[n], steps[n]);
    }
  }

  /** From any floor to any floor, in a building of any height, there is a run in which somebody comes
      and, by their own steps and the lift's, gets there and leaves. */
  lemma Journey(floors: nat, at: nat, to: nat) returns (run: seq<World>, steps: seq<Step>)
    requires 2 <= floors && 1 <= at <= floors && 1 <= to <= floors
    ensures IsRun(run, steps, floors, true) && run[|steps|].people == [Person(at, to, Left)] && run[|steps|].lift.Dwell?
    ensures |steps| > 0 && steps[0] == Arrives(at, to) && LiftOrPerson(steps[1..])
  {
    hide Alone, Formed, OnRound, Leads, Inv, Stands, Next, Init, Enabled;
    Comes(floors, at, to);
    var w0 := Init(floors, true);
    var w, p := Next(w0, Arrives(at, to)), Person(at, to, Start);
    run, steps := Walks(w, p, AwaitLift);
    var q := p.(pc := AwaitLift);
    Rests(w, run[|steps|], p, q, 0);
    var run1, steps1, n := GetsAboard(run[|steps|], q);
    Chain(run, steps, run1, steps1);
    run, steps := run + run1[1..], steps + steps1;
    var run2, steps2 := RidesOut(run[|steps|], q.(pc := AwaitFloor), n);
    Chain(run, steps, run2, steps2);
    run, steps := run + run2[1..], steps + steps2;
    Prepend(w0, Arrives(at, to), run, steps);
    assert ([Arrives(at, to)] + steps)[1..] == steps;
    run, steps := [w0] + run, [Arrives(at, to)] + steps;
    FromStart(run, steps, floors);
  }

  lemma FromStart(run: seq<World>, steps: seq<Step>, floors: nat)
    requires Leads(run, steps) && 2 <= floors && run[0] == Init(floors, true)
    ensures IsRun(run, steps, floors, true)
  {
    hide Formed, Enabled, Next;
  }

  lemma Empties(w: World)
    requires Inv(w) && w.lift.Dwell? && |w.people| == 1 && w.people[0].pc.Left?
    ensures Formed(w) && LiftEnabled(w) && Enabled(w, LiftStep) && Deserted(LiftNext(w)) && LiftNext(w).lift.WantClose? && LiftNext(w).people == w.people
  {
    LockIsFree(w, w.people[0]);
    assert Deserted(w);
    OneLess(w);
    hide Deserted;
  }

  lemma Announces(w: World)
    requires Deserted(w) && w.lift.WantClose?
    ensures Formed(w) && Enabled(w, SpawnerDone)
    ensures var w' := Next(w, SpawnerDone);
            Deserted(w') && Scanned(w') && !w'.spawning && Closing(w'.lift) && w'.people == w.people
  {
  }

  /** And when the arrivals are then declared over, the lift shuts down. */
  lemma JourneyAndEnd(floors: nat, at: nat, to: nat) returns (run: seq<World>, steps: seq<Step>, n: nat)
    requires 2 <= floors && 1 <= at <= floors && 1 <= to <= floors
    ensures IsRun(run, steps, floors, true) && run[|steps|].people == [Person(at, to, Left)] && run[|steps|].lift.Stopped?
    ensures n < |steps| && steps[n] == SpawnerDone && forall k :: 0 < k < |steps| && k != n ==> steps[k] == LiftStep || steps[k] == PersonStep(0)
  {
    hide Inv, Formed, Deserted, Scanned, Closing, LiftNext, Next, Enabled, LiftEnabled, Init, Leads;
    run, steps := Journey(floors, at, to);
    RunKeeps(run, steps, floors, true, |steps|);
    var e := run[|steps|];
    Empties(e);
    var w := LiftNext(e);
    Announces(w);
    var run1, steps1 := MayStop(Next(w, SpawnerDone));
    Prepend(w, SpawnerDone, run1, steps1);
    var run2, steps2 := [w] + run1, [SpawnerDone] + steps1;
    LiftIs(e);
    Prepend(e, LiftStep, run2, steps2);
    var run3, steps3 := [e] + run2, [LiftStep] + steps2;
    IsLeading(run, steps, floors);
    Chain(run, steps, run3, steps3);
    n := |steps| + 1;
    assert forall k :: 0 < k < |steps| ==> steps[k] == steps[1..][k - 1];
    assert forall k :: n < k < |steps + steps3| ==> (steps + steps3)[k] == steps1[k - n - 1];
    run, steps := run + run3[1..], steps + steps3;
    FromStart(run, steps, floors);
  }

  lemma IsLeading(run: seq<World>, steps: seq<Step>, floors: nat)
    requires IsRun(run, steps, floors, true)
    ensures Leads(run, steps)
  {
    hide Formed, Enabled, Next;
  }
}
