/** Where the lift goes and whom it calls (threads/threadtest.cc): it sweeps up and down, opening
    its doors at every floor in turn, and there wakes as many people as wait for it. */
module ElevatorRounds {
  import opened Common
  import opened ElevatorProtocol

  // ---------------------------------------------------------------- one step

  /** The lift moves by one floor, on in its direction, and turns exactly at the lowest floor and
      at the top. */
  lemma OneFloor(w: World)
    requires Formed(w) && w.lift.Go1?
    ensures var w' := Next(w, LiftStep);
            && w'.floor == w.floor + w'.dir && (w'.floor - w.floor == 1 || w.floor - w'.floor == 1)
            && (w'.dir != w.dir <==> (w.dir == 1 && w.floor == w.floors) || (w.dir == -1 && w.floor == 1))
  {
  }

  /** Nothing else moves it. */
  lemma OnlyThen(w: World, s: Step)
    requires Formed(w) && Enabled(w, s) && !(s.LiftStep? && w.lift.Go1?)
    ensures Next(w, s).floor == w.floor && Next(w, s).dir == w.dir && Next(w, s).floors == w.floors
  {
    hide Formed, LiftNextPc, NextPc, Plus, Wake;
  }

  // ---------------------------------------------------------------- the sweep

  /** The floor of stop number n, where floor 1 is number 0: up to the top, down again, and so on. */
  function Stop(floors: nat, n: nat): nat
    requires 2 <= floors
  {
    var phase := n % (2 * (floors - 1));
    if phase < floors then phase + 1 else 2 * floors - 1 - phase
  }

  /** The lift stands at stop number n, about to go on as it should. */
  ghost predicate AtStop(w: World, n: nat) {
    && 2 <= w.floors && w.floor == Stop(w.floors, n)
    && var phase := n % (2 * (w.floors - 1));
       phase != 0 ==> w.dir == if phase < w.floors then 1 else -1
  }

  lemma NextPhase(n: nat, lap: nat)
    requires lap > 0
    ensures (n + 1) % lap == if n % lap + 1 == lap then 0 else n % lap + 1
  {
    var q, m := n / lap, n % lap;
    assert n == q * lap + m;
    if m + 1 == lap {
      assert n + 1 == (q + 1) * lap + 0;
      UniqueRemainder(n + 1, lap, q + 1, 0);
    } else {
      UniqueRemainder(n + 1, lap, q, m + 1);
    }
  }

  lemma GoesToNext(w: World, n: nat)
    requires Formed(w) && w.lift.Go1? && AtStop(w, n)
    ensures AtStop(Next(w, LiftStep), n + 1)
  {
    OneFloor(w);
    NextPhase(n, 2 * (w.floors - 1));
    hide NextFloor;
  }

  // ---------------------------------------------------------------- runs

  /** The floors at which the doors have been opened in the first k steps. */
  ghost function Openings(run: seq<World>, steps: seq<Step>, k: nat): (floors: seq<int>)
    requires |run| == |steps| + 1 && k <= |steps|
  {
    if k == 0 then []
    else Openings(run, steps, k - 1) + if steps[k - 1].LiftStep? && run[k - 1].lift.Open1? then [run[k].floor] else []
  }

  /** On the way from one floor to the next. */
  predicate Between(pc: LiftPc) { pc.Go2? || pc.Travel? || pc.WantOpen? || pc.Open1? }

  lemma StepBetween(w: World, s: Step)
    requires Formed(w) && Enabled(w, s)
    ensures var w' := Next(w, s);
            if s.LiftStep? && w.lift.Go1? then Between(w'.lift)
            else if s.LiftStep? && w.lift.Open1? then !Between(w'.lift) && w'.doorsOpen
            else Between(w'.lift) == Between(w.lift)
  {
    hide Formed, NextPc, NextFloor, Plus, Wake;
  }

  /** The stops made so far are the first ones of the sweep, and the lift stands at the last of them
      or is on its way to the next. */
  ghost predicate InTurn(w: World, done: seq<int>) {
    && AtStop(w, |done| + Unit(Between(w.lift)))
    && forall j :: 0 <= j < |done| ==> done[j] == Stop(w.floors, j + 1)
  }

  lemma StepInTurn(w: World, s: Step, w': World, done: seq<int>, done': seq<int>)
    requires Formed(w) && Enabled(w, s) && w' == Next(w, s) && InTurn(w, done)
    requires done' == if s.LiftStep? && w.lift.Open1? then done + [w'.floor] else done
    ensures InTurn(w', done')
  {
    hide Formed, Next, Enabled, Stop;
    StepBetween(w, s);
    if s.LiftStep? && w.lift.Go1? {
      GoesToNext(w, |done|);
      OneFloor(w);
      SameFloors(w);
    } else {
      OnlyThen(w, s);
    }
  }

  lemma SameFloors(w: World)
    requires Formed(w) && LiftEnabled(w)
    ensures Next(w, LiftStep).floors == w.floors
  {
    hide Formed, LiftNextPc, NextFloor, Wake;
  }

  lemma {:induction false} RunInTurn(run: seq<World>, steps: seq<Step>, floors: nat, spawning: bool, k: nat)
    requires IsRun(run, steps, floors, spawning) && k <= |steps|
    ensures run[k].floors == floors && InTurn(run[k], Openings(run, steps, k))
  {
    hide Formed, Enabled, Next, InTurn;
    if k == 0 {
      FirstInTurn(floors, spawning);
    } else {
      var h := k - 1;
      RunInTurn(run, steps, floors, spawning, h);
      assert Formed(run[h]) && Enabled(run[h], steps[h]) && run[h + 1] == Next(run[h], steps[h]);
      StepInTurn(run[h], steps[h], run[k], Openings(run, steps, h), Openings(run, steps, k));
      StepFloors(run[h], steps[h]);
    }
  }

  lemma StepFloors(w: World, s: Step)
    requires Formed(w) && Enabled(w, s)
    ensures Next(w, s).floors == w.floors
  {
    hide Formed, LiftNextPc, NextFloor, Wake, NextPc, Plus;
  }

  lemma FirstInTurn(floors: nat, spawning: bool)
    requires 2 <= floors
    ensures InTurn(Init(floors, spawning), [])
  {
  }

  /** The lift sweeps: in every run the doors open at the floors 2, 3, ... up to the top, down to 1,
      and so on, one after the other. */
  lemma StopsInTurn(run: seq<World>, steps: seq<Step>, floors: nat, spawning: bool, k: nat, j: nat)
    requires IsRun(run, steps, floors, spawning) && k <= |steps| && j < |Openings(run, steps, k)|
    ensures Openings(run, steps, k)[j] == Stop(floors, j + 1)
  {
    hide IsRun, Stop, Openings;
    RunInTurn(run, steps, floors, spawning, k);
  }

  /** The next stop from number n on that is at floor f. */
  lemma ComesBy(floors: nat, n: nat, f: nat) returns (i: nat)
    requires 2 <= floors && 1 <= f <= floors
    ensures n <= i < n + 2 * (floors - 1) && Stop(floors, i) == f
  {
    var lap := 2 * (floors - 1);
    var d := (f - 1 - n) % lap;
    i := n + d;
    UniqueRemainder(i, lap, -((f - 1 - n) / lap), f - 1);
  }

  /** Every floor is served: among any 2 * (floors - 1) stops that follow each other there is one at
      each floor. */
  lemma EveryFloorServed(run: seq<World>, steps: seq<Step>, floors: nat, spawning: bool, k: nat, j: nat, f: nat)
    requires IsRun(run, steps, floors, spawning) && k <= |steps| && 1 <= f <= floors
    requires j + 2 * (floors - 1) <= |Openings(run, steps, k)|
    ensures f in Openings(run, steps, k)[j..j + 2 * (floors - 1)]
  {
    hide Formed, Enabled, Next, Stop, Openings;
    var i := ComesBy(floors, j + 1, f);
    StopsInTurn(run, steps, floors, spawning, k, i - 1);
    assert Openings(run, steps, k)[j..j + 2 * (floors - 1)][i - 1 - j] == f;
  }

  // ---------------------------------------------------------------- whom it calls

  /** How many of the steps i, ..., j - 1 are of some kind. */
  ghost function Number(run: seq<World>, steps: seq<Step>, i: nat, j: nat, kind: (World, Step) -> bool): nat
    requires |run| == |steps| + 1 && i <= j <= |steps|
  {
    if i == j then 0 else Number(run, steps, i, j - 1, kind) + Unit(kind(run[j - 1], steps[j - 1]))
  }

  /** The lift wakes somebody at floor f; somebody is woken there; the lift advertises a place. */
  ghost function CallsAt(f: nat): (World, Step) -> bool {
    (w: World, s: Step) => s.LiftStep? && (w.lift.GiveWaiting? || w.lift.GiveRiders?) && w.lift.f == f
  }

  ghost function AnswersAt(f: nat): (World, Step) -> bool {
    (w: World, s: Step) =>
      && s.PersonStep? && s.i < |w.people|
      && var p := w.people[s.i];
         (p.pc.AwaitLift? && p.at == f) || (p.pc.AwaitFloor? && p.to == f)
  }

  ghost function Advertises(): (World, Step) -> bool {
    (w: World, s: Step) => s.LiftStep? && w.lift.Advertise? && w.lift.i < CAPACITY
  }

  ghost function Vacates(): (World, Step) -> bool {
    (w: World, s: Step) => s.PersonStep? && s.i < |w.people| && w.people[s.i].pc.Leave3?
  }

  ghost function TriesAgain(): (World, Step) -> bool {
    (w: World, s: Step) => s.PersonStep? && s.i < |w.people| && w.people[s.i].pc.AwaitSpace?
  }

  lemma StepUnits(w: World, s: Step, f: nat)
    requires Formed(w) && Enabled(w, s) && Scanned(w) && f <= w.floors
    ensures var w' := Next(w, s);
            && |w'.arrive| == |w.arrive| == w.floors + 1
            && w'.arrive[f] == w.arrive[f] + Unit(CallsAt(f)(w, s)) - Unit(AnswersAt(f)(w, s))
            && w'.space == w.space + Unit(Advertises()(w, s)) + Unit(Vacates()(w, s)) - Unit(TriesAgain()(w, s))
  {
    assert s.PersonStep? ==> 1 <= w.people[s.i].at <= w.floors && 1 <= w.people[s.i].to <= w.floors;
    hide NextFloor, Plus, LiftHasLock, HasLock;
  }

  /** Units are neither lost nor made: those at a floor are those called less those that answered,
      and places are advertised or vacated and taken up again. */
  lemma {:induction false} UnitsConserved(run: seq<World>, steps: seq<Step>, floors: nat, spawning: bool, i: nat, j: nat, f: nat)
    requires IsRun(run, steps, floors, spawning) && i <= j <= |steps| && 1 <= f <= floors
    ensures |run[i].arrive| == |run[j].arrive| == floors + 1
    ensures run[j].arrive[f] == run[i].arrive[f] + Number(run, steps, i, j, CallsAt(f)) - Number(run, steps, i, j, AnswersAt(f))
    ensures run[j].space == run[i].space + Number(run, steps, i, j, Advertises()) + Number(run, steps, i, j, Vacates())
                            - Number(run, steps, i, j, TriesAgain())
  {
    hide Enabled, Next, CallsAt, AnswersAt, Advertises, Vacates, TriesAgain, Inv, Formed, Scanned, InTurn;
    RunInTurn(run, steps, floors, spawning, i);
    RunKeeps(run, steps, floors, spawning, i);
    InvFormed(run[i]);
    if i < j {
      var h := j - 1;
      UnitsConserved(run, steps, floors, spawning, i, h, f);
      RunInTurn(run, steps, floors, spawning, h);
      RunInTurn(run, steps, floors, spawning, j);
      RunKeeps(run, steps, floors, spawning, h);
      InvFormed(run[h]);
      assert Enabled(run[h], steps[h]) && run[h + 1] == Next(run[h], steps[h]);
      StepUnits(run[h], steps[h], f);
    }
  }

  /** At a floor, from the opened doors to the release of the lock. */
  predicate Opening(pc: LiftPc) {
    pc.WakeWaiting? || pc.GiveWaiting? || pc.WakeRiders? || pc.GiveRiders? || pc.Advertise? || pc.Open2?
  }

  /** How far the lift has come that stopped in state w0: it wakes, one by one, as many as waited
      there or were bound for there, and then advertises the places. */
  ghost predicate Progress(w0: World, w: World, f: nat, calls: nat, places: nat)
    requires Formed(w0)
  {
    var waiting, riding := w0.waitingAt[w0.floor], w0.wantOffAt[w0.floor];
    && Formed(w) && w.floors == w0.floors && w.floor == w0.floor && w.waitingAt == w0.waitingAt && w.wantOffAt == w0.wantOffAt
    && (f != w0.floor ==> calls == 0)
    && match w.lift
       case WakeWaiting(x) => x <= waiting && places == 0 && (f == w0.floor ==> calls == x)
       case GiveWaiting(x, g) => x < waiting && places == 0 && g == w0.floor && (f == w0.floor ==> calls == x)
       case WakeRiders(x) => x <= riding && places == 0 && (f == w0.floor ==> calls == waiting + x)
       case GiveRiders(x, g) => x < riding && places == 0 && g == w0.floor && (f == w0.floor ==> calls == waiting + x)
       case Advertise(x) => places == x <= CAPACITY && (f == w0.floor ==> calls == waiting + riding)
       case Open2 => places == CAPACITY && (f == w0.floor ==> calls == waiting + riding)
       case _ => false
  }

  lemma LiftProgress(w0: World, w: World, f: nat, calls: nat, places: nat)
    requires Formed(w0) && Progress(w0, w, f, calls, places) && Formed(LiftNext(w)) && Opening(LiftNext(w).lift)
    requires 0 <= w0.waitingAt[w0.floor] && 0 <= w0.wantOffAt[w0.floor]
    ensures Progress(w0, LiftNext(w), f, calls + Unit(CallsAt(f)(w, LiftStep)), places + Unit(Advertises()(w, LiftStep)))
  {
    assert 1 <= w0.floor <= w0.floors;
    hide Formed, NextFloor, Wake;
  }

  lemma PersonProgress(w0: World, w: World, i: nat, f: nat, calls: nat, places: nat)
    requires Formed(w0) && Inv(w) && Progress(w0, w, f, calls, places) && PersonEnabled(w, i)
    ensures Progress(w0, PersonNext(w, i), f, calls, places) && PersonNext(w, i).lift == w.lift
  {
    hide PersonNext, NextPc, MovesDoors, Counts, Scanned, AtDoor;
    PersonMoves(w, i);
    PersonKeeps(w, i);
    assert Holders(w) && LiftHasLock(w.lift) && !HasLock(w.people[i].pc);
  }

  lemma StepProgress(w0: World, w: World, s: Step, f: nat, calls: nat, places: nat)
    requires Formed(w0) && Inv(w) && Enabled(w, s) && Progress(w0, w, f, calls, places) && Opening(Next(w, s).lift)
    requires 0 <= w0.waitingAt[w0.floor] && 0 <= w0.wantOffAt[w0.floor]
    ensures Progress(w0, Next(w, s), f, calls + Unit(CallsAt(f)(w, s)), places + Unit(Advertises()(w, s)))
  {
    hide Inv, LiftNext, PersonNext;
    StepKeeps(w, s);
    InvFormed(w);
    InvFormed(Next(w, s));
    if s.PersonStep? {
      PersonProgress(w0, w, s.i, f, calls, places);
    } else if s.LiftStep? {
      LiftProgress(w0, w, f, calls, places);
    }
  }

  lemma InvFormed(w: World)
    requires Inv(w)
    ensures Formed(w) && Scanned(w) && |w.arrive| == w.floors + 1
  {
  }

  lemma Opens(w: World, f: nat)
    requires Inv(w) && w.lift.Open1?
    ensures 0 <= w.waitingAt[w.floor] && 0 <= w.wantOffAt[w.floor]
    ensures Progress(w, LiftNext(w), f, 0, 0)
    ensures !CallsAt(f)(w, LiftStep) && !Advertises()(w, LiftStep)
  {
    LiftKeeps(w);
  }

  lemma {:induction false} RunProgress(run: seq<World>, steps: seq<Step>, floors: nat, spawning: bool, i: nat, j: nat, f: nat)
    requires IsRun(run, steps, floors, spawning) && i < j <= |steps| && run[i].lift.Open1? && steps[i].LiftStep?
    requires forall n :: i < n <= j ==> Opening(run[n].lift)
    ensures Formed(run[i])
    ensures Progress(run[i], run[j], f, Number(run, steps, i, j, CallsAt(f)), Number(run, steps, i, j, Advertises()))
  {
    hide Inv, Formed, Enabled, Next, CallsAt, Advertises, Progress, Opening;
    var h := j - 1;
    RunKeeps(run, steps, floors, spawning, i);
    InvFormed(run[i]);
    Opens(run[i], f);
    assert Formed(run[h]) && Enabled(run[h], steps[h]) && run[h + 1] == Next(run[h], steps[h]);
    if i < h {
      RunProgress(run, steps, floors, spawning, i, h, f);
      RunKeeps(run, steps, floors, spawning, h);
      assert Opening(run[h + 1].lift);
      StepProgress(run[i], run[h], steps[h], f,
                   Number(run, steps, i, h, CallsAt(f)), Number(run, steps, i, h, Advertises()));
    } else {
      assert Number(run, steps, i, i, CallsAt(f)) == 0 && Number(run, steps, i, i, Advertises()) == 0;
      LiftIs(run[i]);
    }
  }

  lemma LiftIs(w: World)
    requires Formed(w) && Enabled(w, LiftStep)
    ensures Next(w, LiftStep) == LiftNext(w)
  {
  }

  /** Each time the lift opens its doors it wakes, before it gives up the lock, exactly as many people
      as are waiting at that floor or riding to it, nobody at other floors, and it advertises five
      places; whatever the others do meanwhile. */
  lemma EverybodyCalled(run: seq<World>, steps: seq<Step>, floors: nat, spawning: bool, i: nat, j: nat, f: nat)
    requires IsRun(run, steps, floors, spawning) && i < j <= |steps| && 1 <= f <= floors
    requires run[i].lift.Open1? && steps[i].LiftStep? && run[j].lift.Open2?
    requires forall n :: i < n <= j ==> Opening(run[n].lift)
    ensures Number(run, steps, i, j, Advertises()) == 5
    ensures Number(run, steps, i, j, CallsAt(f))
            == if f == run[i].floor then Count(run[i].people, Waiting(f)) + Count(run[i].people, Bound(f)) else 0
  {
    hide Enabled, Next, Number, Opening, Holders, AtDoor, Scanned;
    RunProgress(run, steps, floors, spawning, i, j, f);
    RunKeeps(run, steps, floors, spawning, i);
  }
}
