/** When the lift stops (threads/threadtest.cc): who has left by then, and who never will. */
module ElevatorShutdown {
  import opened Common
  import opened ElevatorProtocol

  // ---------------------------------------------------------------- the decision to stop

  /** When the lift decides to shut down, everybody has left exactly if everybody who came has
      registered: it does not know of anybody else. */
  lemma EverybodyLeftIff(run: seq<World>, steps: seq<Step>, floors: nat, spawning: bool, k: nat)
    requires IsRun(run, steps, floors, spawning) && k < |run| && run[k].lift == Close2(true)
    ensures (forall i :: 0 <= i < |run[k].people| ==> run[k].people[i].pc.Left?)
       <==> (forall i :: 0 <= i < |run[k].people| ==> !run[k].people[i].pc.Start?)
  {
    hide IsRun;
    forall i | 0 <= i < |run[k].people|
      ensures run[k].people[i].pc.Left? || run[k].people[i].pc.Start?
    {
      NobodyForgotten(run, steps, floors, spawning, k, i);
    }
  }

  ghost predicate NobodyAtStart(w: World) {
    forall i :: 0 <= i < |w.people| ==> !w.people[i].pc.Start?
  }

  /** What the callers are to keep to: nobody comes once the arrivals are declared over, and
      they are declared over only when everybody who has come has registered. */
  ghost predicate Announced(run: seq<World>, steps: seq<Step>)
    requires |run| == |steps| + 1
  {
    forall k :: 0 <= k < |steps| ==>
      (steps[k].Arrives? ==> run[k].spawning) && (steps[k].SpawnerDone? ==> NobodyAtStart(run[k]))
  }

  lemma PersonStarts(w: World, i: nat)
    requires Formed(w) && PersonEnabled(w, i)
    ensures NobodyAtStart(w) ==> NobodyAtStart(PersonNext(w, i))
    ensures PersonNext(w, i).spawning == w.spawning && PersonNext(w, i).lift == w.lift
  {
    hide Formed, Plus;
    assert PersonNext(w, i).people == w.people[i := w.people[i].(pc := NextPc(w, w.people[i]))];
    hide PersonNext;
  }

  lemma LiftStarts(w: World)
    requires Formed(w) && LiftEnabled(w)
    ensures LiftNext(w).people == w.people && LiftNext(w).spawning == w.spawning
    ensures LiftNext(w).lift == Close2(true) ==> !w.spawning
    ensures NobodyAtStart(w) ==> NobodyAtStart(LiftNext(w))
  {
    hide Formed, Wake, NextFloor;
  }

  lemma {:induction false} AllRegistered(run: seq<World>, steps: seq<Step>, floors: nat, k: nat)
    requires IsRun(run, steps, floors, true) && Announced(run, steps) && k < |run|
    ensures run[k].spawning || NobodyAtStart(run[k])
    ensures run[k].lift == Close2(true) ==> !run[k].spawning
  {
    hide Formed, PersonNext, LiftNext, PersonEnabled, LiftEnabled, NobodyAtStart;
    if k > 0 {
      var w, s := run[k - 1], steps[k - 1];
      AllRegistered(run, steps, floors, k - 1);
      assert Formed(w) && Enabled(w, s) && run[k - 1 + 1] == Next(w, s);
      match s
      case PersonStep(i) => PersonStarts(w, i);
      case LiftStep => LiftStarts(w);
      case Arrives(_, _) =>
      case SpawnerDone => assert NobodyAtStart(run[k]) by { SameStarts(w, run[k]); }
    }
  }

  lemma SameStarts(w: World, w': World)
    requires NobodyAtStart(w) && w'.people == w.people
    ensures NobodyAtStart(w')
  {
  }

  /** If they do, the lift shuts down only when everybody has left. */
  lemma NobodyLeftBehind(run: seq<World>, steps: seq<Step>, floors: nat, k: nat, i: nat)
    requires IsRun(run, steps, floors, true) && Announced(run, steps)
    requires k < |run| && run[k].lift == Close2(true) && i < |run[k].people|
    ensures run[k].people[i].pc.Left?
  {
    hide IsRun, Announced;
    AllRegistered(run, steps, floors, k);
    NobodyForgotten(run, steps, floors, true, k, i);
  }

  // ---------------------------------------------------------------- after it

  predicate IsShut(pc: LiftPc) {
    !(pc.WakeWaiting? || pc.GiveWaiting? || pc.WakeRiders? || pc.GiveRiders? || pc.Advertise? || pc.Open2? || pc.Dwell? || pc.WantClose? || pc.Close1?)
  }

  /** Has not got as far as the door. */
  predicate Outside(pc: PersonPc) {
    pc.Start? || pc.Register1? || pc.Register2? || pc.AwaitLift? || pc.WantBoard? || pc.TestBoard? || pc.NoBoard? || pc.AwaitSpace?
  }

  /** The doors are shut between floors, and for good once the lift has stopped, when nobody
      is inside or at the door. */
  ghost predicate Shut(w: World) {
    && (IsShut(w.lift) ==> !w.doorsOpen)
    && (w.lift.Stopped? ==> forall i :: 0 <= i < |w.people| ==> w.people[i].pc.Left? || Outside(w.people[i].pc))
  }

  lemma PersonShut(w: World, i: nat)
    requires Formed(w) && Shut(w) && PersonEnabled(w, i)
    ensures Shut(PersonNext(w, i))
    ensures w.lift.Stopped? ==> (PersonNext(w, i).people[i].pc.Left? <==> w.people[i].pc.Left?)
  {
    hide Formed, Plus;
    var w' := PersonNext(w, i);
    assert w'.people == w.people[i := w.people[i].(pc := NextPc(w, w.people[i]))];
    assert w'.lift == w.lift && w'.doorsOpen == w.doorsOpen;
    hide PersonNext;
  }

  lemma LiftShut(w: World)
    requires Formed(w) && Shut(w) && LiftEnabled(w)
    requires w.lift == Close2(true) ==> forall i :: 0 <= i < |w.people| ==> w.people[i].pc.Left? || w.people[i].pc.Start?
    ensures Shut(LiftNext(w))
  {
    hide Formed, Wake, NextFloor;
  }

  lemma {:induction false} RunShut(run: seq<World>, steps: seq<Step>, floors: nat, spawning: bool, k: nat)
    requires IsRun(run, steps, floors, spawning) && k < |run|
    ensures Shut(run[k])
  {
    hide Shut, Formed, Enabled, Next;
    if k == 0 {
      InitShut(floors, spawning);
    } else {
      var h := k - 1;
      RunShut(run, steps, floors, spawning, h);
      assert Formed(run[h]) && Enabled(run[h], steps[h]) && run[h + 1] == Next(run[h], steps[h]);
      assert run[h].lift == Close2(true) ==>
             forall i :: 0 <= i < |run[h].people| ==> run[h].people[i].pc.Left? || run[h].people[i].pc.Start? by {
        if run[h].lift == Close2(true) {
          forall i | 0 <= i < |run[h].people|
            ensures run[h].people[i].pc.Left? || run[h].people[i].pc.Start?
          {
            NobodyForgotten(run, steps, floors, spawning, h, i);
          }
        }
      }
      hide IsRun;
      StepShut(run[h], steps[h]);
    }
  }

  lemma InitShut(floors: nat, spawning: bool)
    ensures Shut(Init(floors, spawning))
  {
  }

  lemma StepShut(w: World, s: Step)
    requires Formed(w) && Shut(w) && Enabled(w, s)
    requires w.lift == Close2(true) ==> forall i :: 0 <= i < |w.people| ==> w.people[i].pc.Left? || w.people[i].pc.Start?
    ensures Shut(Next(w, s))
  {
    hide Formed, PersonNext, LiftNext, PersonEnabled;
    match s
    case PersonStep(i) => PersonShut(w, i);
    case LiftStep => LiftShut(w);
    case Arrives(_, _) =>
    case SpawnerDone =>
  }

  lemma StoppedStep(w: World, s: Step, i: nat)
    requires Formed(w) && Shut(w) && Enabled(w, s) && w.lift.Stopped? && i < |w.people|
    ensures var w' := Next(w, s);
            w'.lift.Stopped? && i < |w'.people| && (w'.people[i].pc.Left? <==> w.people[i].pc.Left?)
  {
    hide Formed, LiftNext, Shut;
    if s.PersonStep? {
      PersonShut(w, s.i);
    }
  }

  /** Whoever has not left when the lift has stopped never will. */
  lemma {:induction false} LeftBehind(run: seq<World>, steps: seq<Step>, floors: nat, spawning: bool, k: nat, j: nat, i: nat)
    requires IsRun(run, steps, floors, spawning) && k <= j < |run| && run[k].lift.Stopped? && i < |run[k].people|
    ensures run[j].lift.Stopped? && i < |run[j].people|
    ensures run[j].people[i].pc.Left? <==> run[k].people[i].pc.Left?
  {
    hide Formed, Enabled, Next;
    if k < j {
      var h := j - 1;
      LeftBehind(run, steps, floors, spawning, k, h, i);
      RunShut(run, steps, floors, spawning, h);
      assert Formed(run[h]) && Enabled(run[h], steps[h]) && run[h + 1] == Next(run[h], steps[h]);
      StoppedStep(run[h], steps[h], i);
    }
  }

  // ---------------------------------------------------------------- how it comes to stop

  /** Nobody has registered who has not left. */
  ghost predicate Deserted(w: World) {
    && Inv(w) && (w.lock.None? || w.lock == Some(Lift))
    && forall i :: 0 <= i < |w.people| ==> w.people[i].pc.Left? || w.people[i].pc.Start?
  }

  lemma {:induction false} CountZero(ps: seq<Person>, f: Person -> bool)
    requires forall i :: 0 <= i < |ps| ==> !f(ps[i])
    ensures Count(ps, f) == 0
  {
    if ps != [] { CountZero(ps[1..], f); }
  }

  lemma NothingToDo(w: World, f: nat)
    requires Deserted(w) && 1 <= f <= w.floors
    ensures w.waitingAt[f] == 0 && w.wantOffAt[f] == 0 && w.onboard == 0
  {
    CountZero(w.people, Waiting(f));
    CountZero(w.people, Bound(f));
    CountZero(w.people, Aboard());
  }

  /** On the way to a floor, or there until the doors are about to close. */
  predicate OnTheWay(pc: LiftPc) {
    !(pc.WantClose? || pc.Close1? || pc.Scan? || pc.Close2? || pc.Stopped?)
  }

  /** Past its last Yield of the round, and nobody found so far. */
  predicate Closing(pc: LiftPc) {
    pc.WantClose? || pc.Close1? || (pc.Scan? && !pc.any) || pc == Close2(true)
  }

  /** How many steps the lift has yet to take, at most, until it closes its doors or, then, until
      it stops. */
  function ToGo(w: World): nat
    requires w.lift.Scan? ==> w.lift.f <= w.floors + 1
  {
    match w.lift
    case Stopped => 0
    case Close2(_) => 1
    case Scan(f, _) => w.floors + 3 - f
    case Close1 => w.floors + 3
    case WantClose => w.floors + 4
    case Dwell => w.floors + 5
    case Open2 => w.floors + 6
    case Advertise(i) => w.floors + 7 + (if i < CAPACITY then CAPACITY - i else 0)
    case WakeRiders(_) => w.floors + 13
    case GiveRiders(_, _) => w.floors + 14
    case WakeWaiting(_) => w.floors + 15
    case GiveWaiting(_, _) => w.floors + 16
    case Open1 => w.floors + 17
    case WantOpen => w.floors + 18
    case Travel => w.floors + 19
    case Go2 => w.floors + 20
    case Go1 => w.floors + 21
    case WantGo => w.floors + 22
  }

  lemma OneLess(w: World)
    requires Deserted(w) && (OnTheWay(w.lift) || (Closing(w.lift) && !w.spawning))
    ensures LiftEnabled(w) && Deserted(LiftNext(w)) && LiftNext(w).people == w.people && LiftNext(w).spawning == w.spawning
    ensures Scanned(w) && Scanned(LiftNext(w)) && ToGo(LiftNext(w)) < ToGo(w)
    ensures OnTheWay(w.lift) ==> OnTheWay(LiftNext(w).lift) || LiftNext(w).lift.WantClose?
    ensures Closing(w.lift) ==> Closing(LiftNext(w).lift) || LiftNext(w).lift.Stopped?
  {
    assert LiftEnabled(w) && Scanned(w) && Formed(w);
    LiftKeeps(w);
    NothingToDo(w, w.floor);
    if w.lift.Scan? && 1 <= w.lift.f <= w.floors { NothingToDo(w, w.lift.f); }
    LiftOnly(w);
    Decreases(w);
  }

  lemma LiftOnly(w: World)
    requires Formed(w) && LiftEnabled(w)
    ensures var w' := LiftNext(w);
            w'.people == w.people && w'.spawning == w.spawning && (w'.lock == w.lock || w'.lock.None? || w'.lock == Some(Lift))
  {
    hide Formed, LiftNextPc;
  }

  lemma Decreases(w: World)
    requires Formed(w) && LiftEnabled(w) && Scanned(w) && Scanned(LiftNext(w))
    requires OnTheWay(w.lift) || (Closing(w.lift) && !w.spawning)
    requires w.waitingAt[w.floor] == 0 && w.wantOffAt[w.floor] == 0 && w.onboard == 0
    requires w.lift.Scan? && w.lift.f <= w.floors ==> w.waitingAt[w.lift.f] == 0 && w.wantOffAt[w.lift.f] == 0
    ensures ToGo(LiftNext(w)) < ToGo(w)
    ensures OnTheWay(w.lift) ==> OnTheWay(LiftNext(w).lift) || LiftNext(w).lift.WantClose?
    ensures Closing(w.lift) ==> Closing(LiftNext(w).lift) || LiftNext(w).lift.Stopped?
  {
    hide Formed, ClearBelow, NextFloor, Wake;
  }

  ghost predicate Leads(run: seq<World>, steps: seq<Step>) {
    && |run| == |steps| + 1
    && forall k :: 0 <= k < |steps| ==> Formed(run[k]) && Enabled(run[k], steps[k]) && run[k + 1] == Next(run[k], steps[k])
  }

  lemma Prepend(w: World, s: Step, run: seq<World>, steps: seq<Step>)
    requires Leads(run, steps) && Formed(w) && Enabled(w, s) && run[0] == Next(w, s)
    ensures Leads([w] + run, [s] + steps) && |[w] + run| == |[s] + steps| + 1
  {
    hide Formed, Enabled, Next;
    var run', steps' := [w] + run, [s] + steps;
    forall k | 0 <= k < |steps'|
      ensures Formed(run'[k]) && Enabled(run'[k], steps'[k]) && run'[k + 1] == Next(run'[k], steps'[k])
    {
      if k > 0 {
        assert run'[k] == run[k - 1] && steps'[k] == steps[k - 1] && run'[k + 1] == run[k];
      }
    }
  }

  lemma Chain(run: seq<World>, steps: seq<Step>, run': seq<World>, steps': seq<Step>)
    requires Leads(run, steps) && Leads(run', steps') && run[|steps|] == run'[0]
    ensures Leads(run + run'[1..], steps + steps') && |run + run'[1..]| == |steps| + |steps'| + 1
    ensures (run + run'[1..])[|steps| + |steps'|] == run'[|steps'|]
  {
    hide Formed, Enabled, Next;
    var all, n := run + run'[1..], |steps|;
    forall k | 0 <= k < |steps + steps'|
      ensures Formed(all[k]) && Enabled(all[k], (steps + steps')[k]) && all[k + 1] == Next(all[k], (steps + steps')[k])
    {
      if k >= n {
        assert all[k] == run'[k - n] && (steps + steps')[k] == steps'[k - n] && all[k + 1] == run'[k - n + 1];
      }
    }
  }

  ghost predicate AllLift(steps: seq<Step>) {
    forall k :: 0 <= k < |steps| ==> steps[k] == LiftStep
  }

  lemma AllLiftMore(steps: seq<Step>)
    requires AllLift(steps)
    ensures AllLift([LiftStep] + steps)
  {
  }

  /** With nobody there, the lift comes to where it closes its doors. */
  lemma {:induction false} ComesToClose(w: World) returns (run: seq<World>, steps: seq<Step>)
    requires Deserted(w) && w.people == [] && Scanned(w) && (OnTheWay(w.lift) || w.lift.WantClose?)
    ensures Leads(run, steps) && |run| == |steps| + 1 && run[0] == w && AllLift(steps)
    ensures var w' := run[|steps|]; w'.lift.WantClose? && w'.people == [] && w'.spawning == w.spawning && Deserted(w')
    decreases ToGo(w)
  {
    if w.lift.WantClose? {
      run, steps := [w], [];
    } else {
      OneLess(w);
      hide Deserted, LiftNext, Scanned, OnTheWay, AllLift;
      assert Formed(w) && Next(w, LiftStep) == LiftNext(w);
      var run', steps' := ComesToClose(LiftNext(w));
      run, steps := [w] + run', [LiftStep] + steps';
      Prepend(w, LiftStep, run', steps');
      AllLiftMore(steps');
    }
  }

  /** From where it is about to close its doors, which is past its last Yield: if the arrivals
      are over and everybody has left or not registered, the lift goes on to stop by itself. */
  lemma {:induction false} MayStop(w: World) returns (run: seq<World>, steps: seq<Step>)
    requires Deserted(w) && Scanned(w) && !w.spawning && (Closing(w.lift) || w.lift.Stopped?)
    ensures Leads(run, steps) && |run| == |steps| + 1 && run[0] == w && AllLift(steps)
    ensures run[|steps|].lift.Stopped? && run[|steps|].people == w.people
    decreases ToGo(w)
  {
    if w.lift.Stopped? {
      run, steps := [w], [];
    } else {
      OneLess(w);
      hide Deserted, LiftNext, Scanned, Closing, AllLift;
      assert Formed(w) && Next(w, LiftStep) == LiftNext(w);
      var run', steps' := MayStop(LiftNext(w));
      run, steps := [w] + run', [LiftStep] + steps';
      Prepend(w, LiftStep, run', steps');
      AllLiftMore(steps');
    }
  }

  /** Somebody comes just then: before that person registers the lift looks, finds nobody and
      stops. */
  lemma TooLate(w: World, at: int, to: int) returns (run: seq<World>, steps: seq<Step>)
    requires Deserted(w) && w.people == [] && w.lift.WantClose? && !w.spawning
    ensures Leads(run, steps) && |run| == |steps| + 1 && run[0] == w
    ensures steps != [] && steps[0] == Arrives(at, to) && AllLift(steps[1..])
    ensures run[|steps|].lift.Stopped? && |run[|steps|].people| == 1 && run[|steps|].people[0].pc.Start?
  {
    hide Leads, Count, Holders, Counts, AtDoor, AllLift;
    var w1 := Next(w, Arrives(at, to));
    StepKeeps(w, Arrives(at, to));
    assert Deserted(w1);
    var run1, steps1 := MayStop(w1);
    Prepend(w, Arrives(at, to), run1, steps1);
    run, steps := [w] + run1, [Arrives(at, to)] + steps1;
    assert steps[1..] == steps1;
  }

  /** A run in which somebody is left behind, in a building of any height. Elevator and
      ArrivingGoingFromTo are called directly, so that the arrivals are over from the start; the
      person comes at step `n`, when the lift is past its last Yield of the round; and all other
      steps are the lift's. */
  lemma SomebodyForgotten(floors: nat, at: int, to: int) returns (run: seq<World>, steps: seq<Step>, n: nat)
    requires 2 <= floors
    ensures IsRun(run, steps, floors, false) && run[|steps|].lift.Stopped?
    ensures |run[|steps|].people| == 1 && run[|steps|].people[0].pc.Start?
    ensures n < |steps| && steps[n] == Arrives(at, to) && run[n].lift.WantClose?
    ensures forall k :: 0 <= k < |steps| && k != n ==> steps[k] == LiftStep
  {
    hide Inv, Leads, Count;
    var w := Init(floors, false);
    InitKeeps(floors);
    assert Deserted(w);
    var run1, steps1 := ComesToClose(w);
    var run2, steps2 := TooLate(run1[|steps1|], at, to);
    Chain(run1, steps1, run2, steps2);
    run, steps, n := run1 + run2[1..], steps1 + steps2, |steps1|;
    LeadsFromStart(run, steps, floors);
    assert forall k :: n < k < |steps| ==> steps[k] == steps2[1..][k - n - 1];
  }

  lemma InitKeeps(floors: nat)
    requires 2 <= floors
    ensures Inv(Init(floors, false))
  {
  }

  lemma LeadsFromStart(run: seq<World>, steps: seq<Step>, floors: nat)
    requires Leads(run, steps) && 2 <= floors && run[0] == Init(floors, false)
    ensures IsRun(run, steps, floors, false)
  {
    hide Formed, Enabled, Next;
  }
}
