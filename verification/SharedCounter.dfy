/** The shared counter of threads/threadtest.cc: n workers add one to a shared variable five
    times each, with a semaphore around the addition or with a Yield in the middle of it. */
module SharedCounter {

  const ROUNDS := 5

  // ---------------------------------------------------------------- with the semaphore

  /** Where a worker is: outside the critical section; inside it, before reading the variable,
      after it, or after writing it; looking at the final value; or done. */
  datatype Phase = Outside | Entered | HasRead(val: int) | Written | Looking | Done

  datatype Worker = Worker(num: nat, phase: Phase)

  datatype State = State(workers: seq<Worker>, mutex: nat, shared: int)

  function Launch(n: nat): State {
    State(seq(n, i => Worker(0, Outside)), 1, 0)
  }

  /** One step of worker i: P and V are taken where they change the semaphore, and any other
      worker may run between two steps. */
  predicate Enabled(s: State, i: nat) {
    && i < |s.workers|
    && (s.workers[i].phase.Outside? ==> s.mutex > 0)
    && !s.workers[i].phase.Done?
  }

  function Next(s: State, i: nat): State
    requires Enabled(s, i)
  {
    var w := s.workers[i];
    match w.phase
    case Outside =>
      s.(mutex := s.mutex - 1, workers := s.workers[i := w.(phase := if w.num < ROUNDS then Entered else Looking)])
    case Entered => s.(workers := s.workers[i := w.(phase := HasRead(s.shared))])
    case HasRead(val) => s.(shared := val + 1, workers := s.workers[i := w.(phase := Written)])
    case Written => s.(mutex := s.mutex + 1, workers := s.workers[i := Worker(w.num + 1, Outside)])
    case Looking => s.(mutex := s.mutex + 1, workers := s.workers[i := w.(phase := Done)])
    case Done => s
  }

  predicate Inside(w: Worker) { w.phase.Entered? || w.phase.HasRead? || w.phase.Written? || w.phase.Looking? }

  /** How often a worker has added. */
  function Added(w: Worker): nat { if w.phase.Written? then w.num + 1 else w.num }

  /** Additions completed, and workers inside. */
  function Additions(ws: seq<Worker>): nat {
    if ws == [] then 0 else Added(ws[0]) + Additions(ws[1..])
  }

  function Insiders(ws: seq<Worker>): nat {
    if ws == [] then 0 else (if Inside(ws[0]) then 1 else 0) + Insiders(ws[1..])
  }

  lemma {:induction false} Updated(ws: seq<Worker>, i: nat, w: Worker)
    requires i < |ws|
    ensures Additions(ws[i := w]) == Additions(ws) - Added(ws[i]) + Added(w)
    ensures Insiders(ws[i := w]) == Insiders(ws) - (if Inside(ws[i]) then 1 else 0) + (if Inside(w) then 1 else 0)
  {
    if i == 0 {
      assert ws[0 := w][1..] == ws[1..];
    } else {
      assert ws[i := w][1..] == ws[1..][i - 1 := w];
      Updated(ws[1..], i - 1, w);
    }
  }

  lemma {:induction false} InsiderCounts(ws: seq<Worker>, i: nat)
    requires i < |ws| && Inside(ws[i])
    ensures Insiders(ws) >= 1
  {
    if i > 0 { InsiderCounts(ws[1..], i - 1); }
  }

  lemma {:induction false} TwoInsiders(ws: seq<Worker>, i: nat, j: nat)
    requires i < j < |ws| && Inside(ws[i]) && Inside(ws[j])
    ensures Insiders(ws) >= 2
  {
    if i == 0 { InsiderCounts(ws[1..], j - 1); } else { TwoInsiders(ws[1..], i - 1, j - 1); }
  }

  ghost predicate Inv(s: State) {
    && s.mutex + Insiders(s.workers) == 1
    && s.shared == Additions(s.workers)
    && (forall i :: 0 <= i < |s.workers| ==> WorkerOk(s, s.workers[i]))
  }

  ghost predicate WorkerOk(s: State, w: Worker) {
    && w.num <= ROUNDS && (w.phase.HasRead? ==> w.phase.val == s.shared)
    && (w.phase.Entered? || w.phase.HasRead? || w.phase.Written? ==> w.num < ROUNDS)
    && (w.phase.Looking? || w.phase.Done? ==> w.num == ROUNDS)
  }

  lemma StepKeeps(s: State, i: nat)
    requires Inv(s) && Enabled(s, i)
    ensures Inv(Next(s, i))
  {
    var s' := Next(s, i);
    Updated(s.workers, i, s'.workers[i]);
    forall j | 0 <= j < |s'.workers|
      ensures WorkerOk(s', s'.workers[j])
    {
      assert WorkerOk(s, s.workers[j]) && WorkerOk(s, s.workers[i]);
      if j != i && s.workers[i].phase.HasRead? && Inside(s.workers[j]) {
        if i < j { TwoInsiders(s.workers, i, j); } else { TwoInsiders(s.workers, j, i); }
        assert false;
      }
    }
  }

  /** Any schedule: the worker that takes each step. */
  ghost predicate IsRun(run: seq<State>, schedule: seq<nat>, n: nat) {
    && |run| == |schedule| + 1 && run[0] == Launch(n)
    && forall k :: 0 <= k < |schedule| ==> Enabled(run[k], schedule[k]) && run[k + 1] == Next(run[k], schedule[k])
  }

  lemma {:induction false} LaunchCounts(ws: seq<Worker>)
    requires forall i :: 0 <= i < |ws| ==> ws[i] == Worker(0, Outside)
    ensures Additions(ws) == 0 && Insiders(ws) == 0
  {
    if ws != [] { LaunchCounts(ws[1..]); }
  }

  lemma {:induction false} RunKeeps(run: seq<State>, schedule: seq<nat>, n: nat, k: nat)
    requires IsRun(run, schedule, n) && k < |run|
    ensures Inv(run[k]) && |run[k].workers| == n
  {
    if k == 0 {
      LaunchCounts(Launch(n).workers);
    } else {
      RunKeeps(run, schedule, n, k - 1);
      StepKeeps(run[k - 1], schedule[k - 1]);
    }
  }

  lemma {:induction false} AllDone(ws: seq<Worker>)
    requires forall i :: 0 <= i < |ws| ==> Added(ws[i]) == ROUNDS
    ensures Additions(ws) == ROUNDS * |ws|
  {
    if ws != [] { AllDone(ws[1..]); }
  }

  /** However the workers interleave, the semaphore loses no addition: once all have added,
      every one that looks sees 5n. */
  lemma NothingLost(run: seq<State>, schedule: seq<nat>, n: nat, k: nat)
    requires IsRun(run, schedule, n) && k < |run|
    requires forall i :: 0 <= i < n && i < |run[k].workers| ==> Added(run[k].workers[i]) == ROUNDS
    ensures run[k].shared == ROUNDS * n
  {
    RunKeeps(run, schedule, n, k);
    AllDone(run[k].workers);
  }

  /** A run that can go no further has all workers done: the semaphore does not deadlock. */
  lemma NoDeadlock(run: seq<State>, schedule: seq<nat>, n: nat, k: nat)
    requires IsRun(run, schedule, n) && k < |run| && forall i :: !Enabled(run[k], i)
    ensures forall i :: 0 <= i < |run[k].workers| ==> run[k].workers[i].phase == Done
    ensures run[k].shared == ROUNDS * n
  {
    RunKeeps(run, schedule, n, k);
    var s := run[k];
    forall i | 0 <= i < |s.workers|
      ensures !Inside(s.workers[i])
    {
      assert !Enabled(s, i);
    }
    NobodyInside(s.workers);
    forall i | 0 <= i < |s.workers|
      ensures s.workers[i].phase == Done && s.workers[i].num == ROUNDS
    {
      assert !Enabled(s, i) && WorkerOk(s, s.workers[i]);
    }
    AllDone(s.workers);
  }

  lemma {:induction false} NobodyInside(ws: seq<Worker>)
    requires forall i :: 0 <= i < |ws| ==> !Inside(ws[i])
    ensures Insiders(ws) == 0
  {
    if ws != [] { NobodyInside(ws[1..]); }
  }

  /** The steps a worker has taken: four for each addition, and two to look. */
  function StepsOf(w: Worker): nat {
    4 * w.num + match w.phase
                case Outside => 0
                case Entered => 1
                case HasRead(_) => 2
                case Written => 3
                case Looking => 1
                case Done => 2
  }

  function StepsTaken(ws: seq<Worker>): nat {
    if ws == [] then 0 else StepsOf(ws[0]) + StepsTaken(ws[1..])
  }

  lemma {:induction false} StepsUpdated(ws: seq<Worker>, i: nat, w: Worker)
    requires i < |ws|
    ensures StepsTaken(ws[i := w]) == StepsTaken(ws) - StepsOf(ws[i]) + StepsOf(w)
  {
    if i == 0 {
      assert ws[0 := w][1..] == ws[1..];
    } else {
      assert ws[i := w][1..] == ws[1..][i - 1 := w];
      StepsUpdated(ws[1..], i - 1, w);
    }
  }

  const FULL := 4 * ROUNDS + 2

  lemma {:induction false} StepsBounded(s: State, ws: seq<Worker>)
    requires forall i :: 0 <= i < |ws| ==> WorkerOk(s, ws[i])
    ensures StepsTaken(ws) <= FULL * |ws|
    ensures StepsTaken(ws) == FULL * |ws| <==> forall i :: 0 <= i < |ws| ==> ws[i].phase == Done
  {
    if ws != [] {
      StepsBounded(s, ws[1..]);
      assert WorkerOk(s, ws[0]);
      assert ws == [ws[0]] + ws[1..];
    }
  }

  /** Every schedule comes to an end after 22n steps, when all workers are done, and none
      has to stop before. */
  lemma {:induction false} EveryRunEnds(run: seq<State>, schedule: seq<nat>, n: nat)
    requires IsRun(run, schedule, n)
    ensures StepsTaken(run[|schedule|].workers) == |schedule| <= FULL * n
    ensures |schedule| < FULL * n <==> exists i :: Enabled(run[|schedule|], i)
    ensures |schedule| == FULL * n ==> run[|schedule|].shared == ROUNDS * n
  {
    var k := |schedule|;
    CountSteps(run, schedule, n, k);
    RunKeeps(run, schedule, n, k);
    StepsBounded(run[k], run[k].workers);
    if forall i :: !Enabled(run[k], i) {
      NoDeadlock(run, schedule, n, k);
    }
  }

  lemma {:induction false} CountSteps(run: seq<State>, schedule: seq<nat>, n: nat, k: nat)
    requires IsRun(run, schedule, n) && k < |run|
    ensures StepsTaken(run[k].workers) == k
  {
    if k == 0 {
      NoSteps(run[0].workers);
    } else {
      CountSteps(run, schedule, n, k - 1);
      RunKeeps(run, schedule, n, k - 1);
      var s, i := run[k - 1], schedule[k - 1];
      assert WorkerOk(s, s.workers[i]) && run[k] == Next(s, i);
      StepsUpdated(s.workers, i, run[k].workers[i]);
    }
  }

  lemma {:induction false} NoSteps(ws: seq<Worker>)
    requires forall i :: 0 <= i < |ws| ==> ws[i] == Worker(0, Outside)
    ensures StepsTaken(ws) == 0
  {
    if ws != [] { NoSteps(ws[1..]); }
  }

  // ---------------------------------------------------------------- with a Yield instead

  function Range(a: nat, b: nat): seq<nat>
    requires a <= b
  {
    seq(b - a, j => a + j)
  }

  /** The workers in the order in which they will run when worker i is next. */
  function Ring(n: nat, i: nat): seq<nat>
    requires i <= n
  {
    Range(i, n) + Range(0, i)
  }

  lemma RingTurns(n: nat, i: nat)
    requires i < n
    ensures Ring(n, i) == [i] + Ring(n, i)[1..]
    ensures Ring(n, i)[1..] + [i] == Ring(n, if i + 1 == n then 0 else i + 1)
  {
    assert Range(i, n) == [i] + Range(i + 1, n);
    assert Range(0, i + 1) == Range(0, i) + [i];
    assert Ring(n, i)[1..] == Range(i + 1, n) + Range(0, i);
    if i + 1 == n {
      assert Range(i + 1, n) == [] && Range(0, 0) == [];
    }
  }

  /** A worker between its turns: not begun, in the Yield after reading `val` with `num`
      additions done, or finished. */
  datatype Turn = Fresh | Yielded(num: nat, val: int) | Finished

  /** What a worker that has had t turns has come to, when all keep in step. */
  function InStep(t: nat): Turn {
    if t == 0 then Fresh else if t <= ROUNDS then Yielded(t - 1, t - 1) else Finished
  }

  /** In round r, with worker i next: those before i have had one turn more than the others,
      and the variable holds what the last addition left. */
  ghost predicate Lockstep(ws: seq<Turn>, shared: int, r: nat, i: nat) {
    && i <= |ws| && r <= ROUNDS
    && (forall j :: 0 <= j < |ws| ==> ws[j] == InStep(if j < i then r + 1 else r))
    && shared == if i > 0 || r == 0 then r else r - 1
  }

  /** One turn: finish the addition begun, and begin the next. */
  function TakeTurn(w: Turn, shared: int): (Turn, int) {
    match w
    case Fresh => (Yielded(0, shared), shared)
    case Yielded(num, val) => (if num + 1 < ROUNDS then Yielded(num + 1, val + 1) else Finished, val + 1)
    case Finished => (Finished, shared)
  }

  lemma TurnKeepsStep(ws: seq<Turn>, shared: int, r: nat, i: nat)
    requires Lockstep(ws, shared, r, i) && i < |ws|
    ensures var (w, shared') := TakeTurn(ws[i], shared);
            && ws[i] == InStep(r) && (w.Finished? <==> r == ROUNDS)
            && (if r < ROUNDS && i + 1 == |ws| then Lockstep(ws[i := w], shared', r + 1, 0)
                else Lockstep(ws[i := w], shared', r, i + 1))
  {
  }

  /** LaunchThreads without the semaphore and without a timer: a worker runs until it yields
      in the middle of an addition, and then goes to the end of the ready list. Whatever the
      number of workers, all but one addition of each round are lost. */
  method LaunchUnsynchronised(count: int) returns (shared: int)
    ensures shared == ROUNDS
  {
    hide TakeTurn, Ring;
    var n: nat := if count < 2 then 2 else count;
    var workers := new Turn[n](i => Fresh);
    shared := 0;
    var queue := Range(0, n);
    ghost var r: nat, i: nat := 0, 0;
    RingStarts(n);
    while queue != []
      invariant Lockstep(workers[..], shared, r, i)
      invariant if r < ROUNDS then i < n && queue == Ring(n, i) else queue == Range(i, n)
      decreases ROUNDS - r, n - i
    {
      RingTurns(n, i);
      TurnKeepsStep(workers[..], shared, r, i);
      var me := queue[0];
      queue := queue[1..];
      var (turn, after) := TakeTurn(workers[me], shared);
      workers[me], shared := turn, after;
      if !turn.Finished? {
        queue := queue + [me];
      }
      if r < ROUNDS && i + 1 == n {
        r, i := r + 1, 0;
      } else {
        i := i + 1;
      }
    }
    Lengths(n, i);
  }

  lemma Lengths(n: nat, i: nat)
    requires i <= n
    ensures |Ring(n, i)| == n && |Range(i, n)| == n - i
  {
  }

  lemma RingStarts(n: nat)
    ensures Ring(n, 0) == Range(0, n)
  {
  }
}
