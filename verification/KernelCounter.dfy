/** The shared counter of threads/threadtest.cc on the kernel itself: in every interleaving that
    the kernel produces, whatever other threads do, the workers follow the abstract counter. */
module KernelCounter {
  import opened Common
  import opened Kernels
  import opened KernelClients
  import C = SharedCounter

  /** The semaphore `mutex`. */
  const MUTEX := Plain(1)

  /** What SimpleThread calls: P to enter, V to leave. */
  function CallOf(w: C.Worker): Option<(Call, C.Worker)> {
    match w.phase
    case Outside => Some((P(MUTEX.n), C.Worker(w.num, if w.num < C.ROUNDS then C.Entered else C.Looking)))
    case Written => Some((V(MUTEX.n), C.Worker(w.num + 1, C.Outside)))
    case Looking => Some((V(MUTEX.n), C.Worker(w.num, C.Done)))
    case _ => None
  }

  /** What it does between: read the variable, and write it. */
  predicate Works(w: C.Worker, shared: int, next: C.Worker, data: int) {
    match w.phase
    case Entered => next == w.(phase := C.HasRead(shared)) && data == shared
    case HasRead(val) => next == w.(phase := C.Written) && data == val + 1
    case _ => false
  }

  ghost function SimpleThread(): Code<C.Worker, int> {
    Code({MUTEX}, CallOf, Works, (l, s, u, child, next, data) => false, (s, n, data) => false)
  }

  // ---------------------------------------------------------------- over an atomic semaphore

  /** The threads in the code, each once. */
  ghost predicate Crew<L>(locals: map<Tid, L>, ids: seq<Tid>) {
    && (forall i :: 0 <= i < |ids| ==> ids[i] in locals)
    && (forall t :: t in locals ==> t in ids)
    && (forall i, j :: 0 <= i < j < |ids| ==> ids[i] != ids[j])
  }

  ghost function View(a: Atomic<C.Worker, int>, ids: seq<Tid>): C.State
    requires MUTEX in a.value && forall i :: 0 <= i < |ids| ==> ids[i] in a.locals
  {
    C.State(seq(|ids|, i requires 0 <= i < |ids| => a.locals[ids[i]]), a.value[MUTEX], a.shared)
  }

  lemma EventFollows(a: Atomic<C.Worker, int>, e: Event<C.Worker, int>, ids: seq<Tid>) returns (i: nat)
    requires MUTEX in a.value && Crew(a.locals, ids) && EventEnabled(SimpleThread(), a, e)
    ensures var a' := EventNext(SimpleThread(), a, e);
            && MUTEX in a'.value && Crew(a'.locals, ids)
            && C.Enabled(View(a, ids), i) && View(a', ids) == C.Next(View(a, ids), i)
  {
    var a' := EventNext(SimpleThread(), a, e);
    i :| 0 <= i < |ids| && ids[i] == e.t;
    assert a'.locals == a.locals[e.t := a'.locals[e.t]];
    assert View(a', ids).workers == View(a, ids).workers[i := a'.locals[e.t]];
  }

  lemma {:induction false} AtomicFollows(atoms: seq<Atomic<C.Worker, int>>, events: seq<Event<C.Worker, int>>, ids: seq<Tid>)
    returns (counter: seq<C.State>, schedule: seq<nat>)
    requires IsAtomicRun(SimpleThread(), atoms, events)
    requires MUTEX in atoms[0].value && Crew(atoms[0].locals, ids) && View(atoms[0], ids) == C.Launch(|ids|)
    ensures |atoms| == |events| + 1 && MUTEX in atoms[|events|].value && Crew(atoms[|events|].locals, ids)
    ensures C.IsRun(counter, schedule, |ids|) && |counter| == |schedule| + 1 && counter[|schedule|] == View(atoms[|events|], ids)
    decreases |events|
  {
    hide C.Enabled, C.Next, Crew, View, EventEnabled, EventNext;
    if events == [] {
      counter, schedule := [C.Launch(|ids|)], [];
    } else {
      var n := |events| - 1;
      counter, schedule := AtomicFollows(atoms[..n + 1], events[..n], ids);
      var i := EventFollows(atoms[n], events[n], ids);
      counter, schedule := counter + [View(atoms[n + 1], ids)], schedule + [i];
    }
  }

  // ---------------------------------------------------------------- on the kernel

  /** The threads `ids` are to run SimpleThread, with the semaphore at 1 and the variable at 0. */
  ghost predicate Launched(w: World<C.Worker, int>, init: map<Sem, nat>, ids: seq<Tid>) {
    && MUTEX in init && init[MUTEX] == 1 && Crew(w.locals, ids) && w.shared == 0
    && forall t :: t in w.locals ==> w.locals[t] == At(C.Worker(0, C.Outside))
  }

  lemma LaunchedView(w: World<C.Worker, int>, init: map<Sem, nat>, locks: set<Lock>, ids: seq<Tid>)
    requires StartsAs(SimpleThread(), w, init, locks) && Launched(w, init, ids)
    ensures Installed(w.k, {MUTEX})
    ensures var a := Abs(SimpleThread(), w);
            MUTEX in a.value && Crew(a.locals, ids) && View(a, ids) == C.Launch(|ids|)
  {
  }

  /** The counter on the kernel refines the abstract one: what a run of the kernel has come to,
      a run of the abstract counter comes to. */
  lemma RunFollows(run: seq<World<C.Worker, int>>, steps: seq<Step<C.Worker, int>>, init: map<Sem, nat>, locks: set<Lock>,
                   ids: seq<Tid>, k: nat)
    returns (counter: seq<C.State>, schedule: seq<nat>)
    requires IsRun(SimpleThread(), run, steps, init, locks) && Launched(run[0], init, ids) && k < |run|
    ensures Installed(run[k].k, {MUTEX}) && Crew(Places(run[k]), ids)
    ensures C.IsRun(counter, schedule, |ids|) && |counter| == |schedule| + 1
    ensures var a := Abs(SimpleThread(), run[k]);
            MUTEX in a.value && counter[|schedule|] == View(a, ids)
  {
    LaunchedView(run[0], init, locks, ids);
    hide Launched, View, Crew, Abs, C.IsRun, IsAtomicRun;
    var atoms, events := KernelClients.RunFollows(SimpleThread(), run, steps, init, locks, k);
    counter, schedule := AtomicFollows(atoms, events, ids);
    assert Abs(SimpleThread(), run[k]).locals == Places(run[k]);
  }

  /** Inside the critical section, as far as the worker's own code has come. */
  predicate Inside(x: Where<C.Worker>) { x.At? && C.Inside(x.l) }

  /** On the kernel, in every interleaving: what a worker has read is still the value when it
      writes; no two workers are between reading and calling V; and when all workers are done,
      the value is 5n. */
  lemma CounterIsExact(run: seq<World<C.Worker, int>>, steps: seq<Step<C.Worker, int>>, init: map<Sem, nat>, locks: set<Lock>,
                       ids: seq<Tid>, k: nat, i: nat, j: nat)
    requires IsRun(SimpleThread(), run, steps, init, locks) && Launched(run[0], init, ids) && k < |run| && i < |ids| && j < |ids|
    ensures Crew(run[k].locals, ids)
    ensures var x := run[k].locals[ids[i]]; x.At? && x.l.phase.HasRead? ==> x.l.phase.val == run[k].shared
    ensures i != j && Inside(run[k].locals[ids[i]]) ==> !Inside(run[k].locals[ids[j]])
    ensures (forall t :: t in run[k].locals ==> Places(run[k])[t].phase.Done?) ==> run[k].shared == C.ROUNDS * |ids|
  {
    hide IsRun, C.IsRun, Launched;
    var counter, schedule := RunFollows(run, steps, init, locks, ids, k);
    C.RunKeeps(counter, schedule, |ids|, |schedule|);
    var s, w := counter[|schedule|], run[k];
    assert forall t :: t in w.locals <==> t in Places(w);
    assert C.WorkerOk(s, s.workers[i]) && C.WorkerOk(s, s.workers[j]);
    if i < j && C.Inside(s.workers[i]) && C.Inside(s.workers[j]) { C.TwoInsiders(s.workers, i, j); }
    if j < i && C.Inside(s.workers[i]) && C.Inside(s.workers[j]) { C.TwoInsiders(s.workers, j, i); }
    if forall t :: t in w.locals ==> Places(w)[t].phase.Done? {
      forall h | 0 <= h < |ids|
        ensures C.Added(s.workers[h]) == C.ROUNDS
      {
        assert C.WorkerOk(s, s.workers[h]) && s.workers[h] == Places(w)[ids[h]];
      }
      C.AllDone(s.workers);
    }
  }
}
