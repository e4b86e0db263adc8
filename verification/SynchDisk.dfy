/** Any number of threads reading and writing sectors through filesys/synchdisk.cc, over a
    disk that takes one request at a time and interrupts when it is done (machine/disk.cc).
    Acquire and P are taken where they succeed, Release and V where they add their unit. */
module SynchDiskProtocol {
  import opened Common

  type Tid = nat
  type Data = seq<int>

  datatype Request = Read(sector: nat) | Write(sector: nat, data: Data)

  /** Where a thread is in ReadSector or WriteSector. `n` is the number of its request. A thread
      that is not in the map is elsewhere. */
  datatype Phase =
    | Locked(r: Request)                 // Acquire has returned
    | Waiting(r: Request, n: nat)        // the request is issued, P has not returned
    | Served(r: Request, n: nat)         // P has returned, the lock is still held

  datatype World = World(
    phase: map<Tid, Phase>,
    lock: Option<Tid>,
    value: nat,                          // of the semaphore
    active: bool,                        // the disk is busy
    sectors: seq<Data>,
    buffer: map<Tid, Data>,              // what each thread's last read brought
    requests: seq<Request>,              // issued so far
    interrupts: nat)                     // taken so far

  function Init(sectors: seq<Data>): World {
    World(map[], None, 0, false, sectors, map[], [], 0)
  }

  datatype Step =
    | Acquire(t: Tid, r: Request)
    | Issue(t: Tid)                      // ReadRequest or WriteRequest
    | Interrupt                          // HandleInterrupt, RequestDone
    | TakeP(t: Tid)
    | Release(t: Tid)

  predicate At(w: World, t: Tid) { t in w.phase }

  /** A step is possible. What the disk asserts is not among the conditions. */
  predicate Enabled(w: World, s: Step) {
    match s
    case Acquire(t, r) => !At(w, t) && w.lock.None? && r.sector < |w.sectors|
    case Issue(t) => At(w, t) && w.phase[t].Locked?
    case Interrupt => w.active
    case TakeP(t) => At(w, t) && w.phase[t].Waiting? && w.value > 0
    case Release(t) => At(w, t) && w.phase[t].Served?
  }

  /** One request on the raw disk: the transfer happens at once. */
  function Transfer(sectors: seq<Data>, r: Request): seq<Data> {
    if r.Write? && r.sector < |sectors| then sectors[r.sector := r.data] else sectors
  }

  function Next(w: World, s: Step): World
    requires Enabled(w, s)
  {
    match s
    case Acquire(t, r) => w.(lock := Some(t), phase := w.phase[t := Locked(r)])
    case Issue(t) =>
      var r := w.phase[t].r;
      w.(active := true, sectors := Transfer(w.sectors, r),
         buffer := if r.Read? && r.sector < |w.sectors| then w.buffer[t := w.sectors[r.sector]] else w.buffer,
         phase := w.phase[t := Waiting(r, |w.requests|)],
         requests := w.requests + [r])
    case Interrupt => w.(active := false, value := w.value + 1, interrupts := w.interrupts + 1)
    case TakeP(t) => w.(value := w.value - 1, phase := w.phase[t := Served(w.phase[t].r, w.phase[t].n)])
    case Release(t) => w.(lock := None, phase := w.phase - {t})
  }

  // ---------------------------------------------------------------- what every step keeps

  ghost function WaitingThreads(w: World): set<Tid> {
    set t | t in w.phase && w.phase[t].Waiting?
  }

  /** The disk's contents if the requests had been made one after the other. */
  function Replay(sectors: seq<Data>, requests: seq<Request>): seq<Data> {
    if requests == [] then sectors
    else Transfer(Replay(sectors, requests[..|requests| - 1]), requests[|requests| - 1])
  }

  ghost predicate Inv(w: World, sectors: seq<Data>) {
    && (forall t :: t in w.phase ==> w.lock == Some(t))
    && (w.lock.Some? ==> w.lock.value in w.phase)
    && w.value + Unit(w.active) == (if w.lock.Some? && w.phase[w.lock.value].Waiting? then 1 else 0)
    && w.interrupts + Unit(w.active) == |w.requests|
    && w.sectors == Replay(sectors, w.requests) && |w.sectors| == |sectors|
    && (forall t :: t in w.phase && !w.phase[t].Locked? ==> OwnRequest(w, sectors, t))
    && (forall t :: t in w.phase && w.phase[t].Locked? ==> w.phase[t].r.sector < |sectors|)
  }

  /** The thread's request is the last one issued; if it read, its buffer holds the sector as
      the requests before left it; and once served, its interrupt has come. */
  ghost predicate OwnRequest(w: World, sectors: seq<Data>, t: Tid)
    requires t in w.phase && !w.phase[t].Locked?
  {
    var r, n := w.phase[t].r, w.phase[t].n;
    && n + 1 == |w.requests| && w.requests[n] == r && r.sector < |sectors|
    && (r.Read? ==> |Replay(sectors, w.requests[..n])| == |sectors| && t in w.buffer
                    && w.buffer[t] == Replay(sectors, w.requests[..n])[r.sector])
    && (w.phase[t].Served? ==> w.interrupts > n)
  }

  lemma IssueKeeps(w: World, t: Tid, sectors: seq<Data>)
    requires Inv(w, sectors) && Enabled(w, Issue(t))
    ensures !w.active && Inv(Next(w, Issue(t)), sectors)
  {
    var w' := Next(w, Issue(t));
    assert w'.requests[..|w'.requests| - 1] == w.requests;
    assert !w.active;
    forall u | u in w'.phase && !w'.phase[u].Locked?
      ensures OwnRequest(w', sectors, u)
    {
      assert u == t;
    }
  }

  lemma StepKeeps(w: World, s: Step, sectors: seq<Data>)
    requires Inv(w, sectors) && Enabled(w, s)
    ensures Inv(Next(w, s), sectors)
    ensures s.Issue? ==> !w.active
  {
    match s
    case Issue(t) => IssueKeeps(w, t, sectors);
    case Interrupt =>
      forall t | t in w.phase && !w.phase[t].Locked?
        ensures OwnRequest(Next(w, s), sectors, t)
      {
        assert OwnRequest(w, sectors, t);
      }
    case Acquire(t, r) =>
    case TakeP(t) => assert OwnRequest(w, sectors, t);
    case Release(t) =>
  }

  // ---------------------------------------------------------------- every run

  ghost predicate IsRun(run: seq<World>, steps: seq<Step>, sectors: seq<Data>) {
    && |run| == |steps| + 1 && run[0] == Init(sectors)
    && forall i :: 0 <= i < |steps| ==> Enabled(run[i], steps[i]) && run[i + 1] == Next(run[i], steps[i])
  }

  lemma {:induction false} RunKeeps(run: seq<World>, steps: seq<Step>, sectors: seq<Data>, i: nat)
    requires IsRun(run, steps, sectors) && i < |run|
    ensures Inv(run[i], sectors)
  {
    if i > 0 {
      RunKeeps(run, steps, sectors, i - 1);
      StepKeeps(run[i - 1], steps[i - 1], sectors);
    }
  }

  /** The semaphore and the busy disk together account for the threads between their request
      and the end of P, of which there is at most one. */
  lemma OneOutstanding(run: seq<World>, steps: seq<Step>, sectors: seq<Data>, i: nat)
    requires IsRun(run, steps, sectors) && i < |run|
    ensures run[i].value + Unit(run[i].active) == |WaitingThreads(run[i])| <= 1
  {
    RunKeeps(run, steps, sectors, i);
    var w := run[i];
    if w.lock.Some? && w.phase[w.lock.value].Waiting? {
      assert WaitingThreads(w) == {w.lock.value};
    } else {
      assert WaitingThreads(w) == {};
    }
  }

  /** The raw disk's assertion that it is idle never fails. */
  lemma DiskIdleAtRequest(run: seq<World>, steps: seq<Step>, sectors: seq<Data>, i: nat)
    requires IsRun(run, steps, sectors) && i < |steps| && steps[i].Issue?
    ensures !run[i].active
  {
    RunKeeps(run, steps, sectors, i);
    StepKeeps(run[i], steps[i], sectors);
  }

  /** ReadSector and WriteSector return only after the interrupt of their own request; a read
      brings the sector as all requests before it, one after the other, have left it; and so
      is the disk at any time. */
  lemma OwnInterrupt(run: seq<World>, steps: seq<Step>, sectors: seq<Data>, i: nat, t: Tid)
    requires IsRun(run, steps, sectors) && i < |run| && t in run[i].phase && run[i].phase[t].Served?
    ensures var w := run[i];
            var n := w.phase[t].n;
            && n < w.interrupts && n < |w.requests| && w.requests[n] == w.phase[t].r
            && (w.requests[n].Read? ==>
                  && t in w.buffer && w.requests[n].sector < |Replay(sectors, w.requests[..n])|
                  && w.buffer[t] == Replay(sectors, w.requests[..n])[w.requests[n].sector])
            && w.sectors == Replay(sectors, w.requests)
  {
    RunKeeps(run, steps, sectors, i);
    assert OwnRequest(run[i], sectors, t);
  }

  // ---------------------------------------------------------------- what a read brings

  /** The request writes the sector. */
  predicate Writes(r: Request, sector: nat) { r.Write? && r.sector == sector }

  /** Request number k is the last of these that writes the sector. */
  ghost predicate IsLastWrite(requests: seq<Request>, sector: nat, k: nat) {
    k < |requests| && Writes(requests[k], sector) && forall j :: k < j < |requests| ==> !Writes(requests[j], sector)
  }

  /** One after the other, the requests leave in a sector what the last of them that writes it wrote. */
  lemma {:induction false} LastWriteStays(sectors: seq<Data>, requests: seq<Request>, sector: nat)
    requires sector < |sectors|
    ensures |Replay(sectors, requests)| == |sectors|
    ensures forall k: nat :: IsLastWrite(requests, sector, k) ==> Replay(sectors, requests)[sector] == requests[k].data
    ensures (forall j :: 0 <= j < |requests| ==> !Writes(requests[j], sector)) ==> Replay(sectors, requests)[sector] == sectors[sector]
  {
    if requests != [] {
      var n := |requests| - 1;
      var front := requests[..n];
      LastWriteStays(sectors, front, sector);
      if !Writes(requests[n], sector) {
        assert forall k: nat :: IsLastWrite(requests, sector, k) ==> IsLastWrite(front, sector, k);
      }
    }
  }

  /** A read that has been served brings what the last write before it put into the sector, or, if
      there was none, what was there at the start. */
  lemma ReadsLastWrite(run: seq<World>, steps: seq<Step>, sectors: seq<Data>, i: nat, t: Tid)
    requires IsRun(run, steps, sectors) && i < |run| && t in run[i].phase && run[i].phase[t].Served? && run[i].phase[t].r.Read?
    ensures var w, sector := run[i], run[i].phase[t].r.sector;
            && t in w.buffer && sector < |sectors| && w.phase[t].n < |w.requests|
            && var before := w.requests[..w.phase[t].n];
               && (forall k: nat :: IsLastWrite(before, sector, k) ==> w.buffer[t] == before[k].data)
               && ((forall j :: 0 <= j < |before| ==> !Writes(before[j], sector)) ==> w.buffer[t] == sectors[sector])
  {
    hide IsRun, Replay, IsLastWrite;
    OwnInterrupt(run, steps, sectors, i, t);
    var w := run[i];
    RunKeeps(run, steps, sectors, i);
    assert OwnRequest(w, sectors, t);
    LastWriteStays(sectors, w.requests[..w.phase[t].n], w.phase[t].r.sector);
  }

  // ---------------------------------------------------------------- calls end

  /** How many steps a call has yet to go. */
  function ToGo(w: World, t: Tid): nat {
    if t !in w.phase then 0
    else match w.phase[t]
      case Locked(_) => 4
      case Waiting(_, _) => if w.active then 3 else 2
      case Served(_, _) => 1
  }

  /** While a thread is in a call, every step possible is one of that call, and there is one. */
  lemma Proceeds(w: World, t: Tid, sectors: seq<Data>)
    requires Inv(w, sectors) && t in w.phase
    ensures exists s :: Enabled(w, s)
    ensures forall s :: Enabled(w, s) ==> ToGo(Next(w, s), t) < ToGo(w, t)
  {
    assert Enabled(w, if w.phase[t].Locked? then Issue(t) else if w.phase[t].Served? then Release(t)
                      else if w.active then Interrupt else TakeP(t));
  }

  /** No call is ever stuck: four steps after it has the lock, whatever they are, it has returned. */
  lemma {:induction false} CallEnds(run: seq<World>, steps: seq<Step>, sectors: seq<Data>, i: nat, j: nat, t: Tid)
    requires IsRun(run, steps, sectors) && i <= j < |run| && (forall n :: i <= n <= j ==> t in run[n].phase)
    ensures ToGo(run[j], t) + (j - i) <= ToGo(run[i], t) && j - i < 4
  {
    hide Inv, Next, Enabled;
    if i < j {
      CallEnds(run, steps, sectors, i, j - 1, t);
      RunKeeps(run, steps, sectors, j - 1);
      Proceeds(run[j - 1], t, sectors);
      assert Enabled(run[j - 1], steps[j - 1]) && run[j - 1 + 1] == Next(run[j - 1], steps[j - 1]);
    }
  }
}
