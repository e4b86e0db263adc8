/** The simulated interrupt hardware of machine/interrupt.cc: pending interrupts on a sorted
    list, the clock, and the loops that fire what is due. */
module Interrupts {
  import opened Lists

  const USER_TICK := 1
  const SYSTEM_TICK := 10

  datatype Kind = Timer | Disk | ConsoleWrite | ConsoleRead | NetworkSend | NetworkRecv

  datatype Mode = IdleMode | SystemMode | UserMode

  datatype Pending = Pending(handler: nat, when: int, kind: Kind)

  /** What a handler does to the interrupt hardware: it schedules, and may ask for a yield. */
  datatype Request = Request(handler: nat, fromNow: int, kind: Kind)
  datatype Reaction = Reaction(requests: seq<Request>, wantsYield: bool)

  /** Handlers are code of the devices: any reaction, which may differ from call to call. */
  type Handlers = (Pending, nat) -> Reaction

  /** Schedule insists on the future. */
  ghost predicate LookAhead(handlers: Handlers) {
    forall p, n, i :: 0 <= i < |handlers(p, n).requests| ==> handlers(p, n).requests[i].fromNow > 0
  }

  lemma LooksAhead(handlers: Handlers, p: Pending, n: nat)
    requires LookAhead(handlers)
    ensures forall i :: 0 <= i < |handlers(p, n).requests| ==> handlers(p, n).requests[i].fromNow > 0
  {
  }

  type Queue = seq<Keyed<Pending>>

  /** What has been scheduled and what has fired, with the time at which it fired. */
  datatype History = History(scheduled: Queue, fired: Queue, at: seq<int>)

  // ---------------------------------------------------------------- histories

  ghost predicate Waiting(q: Queue) {
    Sorted(q) && forall e :: e in q ==> e.key == e.item.when
  }

  /** Every interrupt scheduled is pending or has fired, once. */
  ghost predicate Accounted(h: History, q: Queue) {
    multiset(h.scheduled) == multiset(h.fired) + multiset(q)
  }

  /** None fired early, and time went forward. */
  ghost predicate Punctual(h: History, now: int) {
    && |h.at| == |h.fired|
    && (forall i :: 0 <= i < |h.at| ==> h.fired[i].key <= h.at[i] <= now)
    && (forall i, j :: 0 <= i <= j < |h.at| ==> h.at[i] <= h.at[j])
  }

  /** They fired in the order of their times, and what is pending comes no earlier. */
  ghost predicate InOrder(h: History, q: Queue) {
    Sorted(h.fired) && (h.fired != [] && q != [] ==> h.fired[|h.fired| - 1].key <= q[0].key)
  }

  ghost predicate Good(h: History, q: Queue, now: int) {
    Waiting(q) && Accounted(h, q) && Punctual(h, now) && InOrder(h, q)
  }

  lemma InsertedWaiting(q: Queue, e: Keyed<Pending>)
    requires Waiting(q) && e.key == e.item.when
    ensures Waiting(Inserted(q, e)) && Inserted(q, e) != []
    ensures Inserted(q, e)[0].key == if q != [] && q[0].key <= e.key then q[0].key else e.key
  {
    InsertedSorted(q, e);
    InsertedKeeps(q, e);
    forall x | x in Inserted(q, e)
      ensures x.key == x.item.when
    {
      assert x in multiset(Inserted(q, e));
    }
  }

  lemma ScheduleGood(h: History, q: Queue, now: int, e: Keyed<Pending>)
    requires Good(h, q, now) && e.key > now && e.key == e.item.when
    ensures Good(h.(scheduled := h.scheduled + [e]), Inserted(q, e), now)
  {
    InsertedWaiting(q, e);
    InsertedKeeps(q, e);
    hide Waiting, Inserted, Sorted;
  }

  lemma TailWaiting(q: Queue)
    requires Waiting(q) && q != []
    ensures Waiting(q[1..]) && q[0].key == q[0].item.when && (q[1..] != [] ==> q[0].key <= q[1..][0].key)
  {
  }

  lemma TailCounts(q: Queue)
    requires q != []
    ensures multiset(q) == multiset{q[0]} + multiset(q[1..])
  {
    assert q == [q[0]] + q[1..];
  }

  lemma SortedAppend(s: Queue, e: Keyed<Pending>)
    requires Sorted(s) && (s != [] ==> s[|s| - 1].key <= e.key)
    ensures Sorted(s + [e])
  {
  }

  lemma PunctualAppend(h: History, now: int, e: Keyed<Pending>)
    requires Punctual(h, now) && e.key <= now
    ensures Punctual(h.(fired := h.fired + [e], at := h.at + [now]), now)
  {
  }

  lemma FireGood(h: History, q: Queue, now: int)
    requires Good(h, q, now) && q != [] && q[0].key <= now
    ensures Good(h.(fired := h.fired + [q[0]], at := h.at + [now]), q[1..], now)
  {
    hide Waiting, Sorted, Punctual;
    TailWaiting(q);
    TailCounts(q);
    SortedAppend(h.fired, q[0]);
    PunctualAppend(h, now, q[0]);
  }

  lemma PutBackGood(h: History, q: Queue, now: int)
    requires Good(h, q, now) && q != []
    ensures Good(h, Inserted(q[1..], q[0]), now)
  {
    hide Waiting, Inserted, Sorted, Punctual;
    TailWaiting(q);
    TailCounts(q);
    InsertedWaiting(q[1..], q[0]);
    InsertedKeeps(q[1..], q[0]);
  }

  lemma GoodParts(h: History, q: Queue, now: int)
    requires Good(h, q, now)
    ensures multiset(h.scheduled) == multiset(h.fired) + multiset(q) && Punctual(h, now) && Sorted(h.fired)
  {
  }

  lemma LaterGood(h: History, q: Queue, now: int, later: int)
    requires Good(h, q, now) && now <= later
    ensures Good(h, q, later)
  {
  }

  lemma FrontKey(h: History, q: Queue, now: int)
    requires Good(h, q, now) && q != []
    ensures q[0].key == q[0].item.when
  {
  }

  /** How many pending interrupts are due: the place of the present on the sorted list. */
  function Due(q: Queue, now: int): nat {
    Place(q, 0, now)
  }

  lemma PlaceUnique(q: Queue, now: int, p: nat)
    requires p <= |q| && (forall i :: 0 <= i < p ==> q[i].key <= now) && (p < |q| ==> now < q[p].key)
    ensures Due(q, now) == p
  {
  }

  lemma DueAfterSchedule(q: Queue, now: int, e: Keyed<Pending>)
    requires Sorted(q) && e.key > now
    ensures Due(Inserted(q, e), now) == Due(q, now)
  {
    PlaceUnique(Inserted(q, e), now, Due(q, now));
  }

  lemma GoodLengths(h: History, q: Queue, now: int)
    requires Good(h, q, now)
    ensures |h.at| == |h.fired|
  {
  }

  lemma GoodSorted(h: History, q: Queue, now: int)
    requires Good(h, q, now)
    ensures Sorted(q)
  {
  }

  lemma DueAfterFire(q: Queue, now: int)
    requires q != [] && q[0].key <= now
    ensures Due(q, now) == Due(q[1..], now) + 1
  {
    PlaceUnique(q, now, Due(q[1..], now) + 1);
  }

  /** The machine counts itself done when only the time-slice timer could still go off. */
  predicate OnlyTimer(q: Queue) {
    |q| == 1 && q[0].item.kind == Timer
  }

  /** What the firing loop leaves: nothing due, or an idle machine with its timer. */
  ghost predicate Settled(q: Queue, now: int, status: Mode) {
    (forall e :: e in q ==> e.key > now) || (status == IdleMode && OnlyTimer(q))
  }

  /** What a request puts on the list. */
  function Entry(r: Request, now: int): Keyed<Pending> {
    Keyed(Pending(r.handler, now + r.fromNow, r.kind), now + r.fromNow)
  }

  function Entries(rs: seq<Request>, now: int): (q: Queue)
    ensures |q| == |rs|
  {
    seq(|rs|, i requires 0 <= i < |rs| => Entry(rs[i], now))
  }

  lemma EntriesNone(rs: seq<Request>, now: int)
    ensures Entries(rs[..0], now) == []
  {
  }

  lemma EntriesNext(rs: seq<Request>, now: int, i: nat)
    requires i < |rs|
    ensures Entries(rs[..i + 1], now) == Entries(rs[..i], now) + [Entry(rs[i], now)]
  {
  }

  /** What interrupt number i put on the list when it fired: its handler's requests, for the time
      at which it fired. */
  ghost function RequestedBy(handlers: Handlers, h: History, i: nat): Queue
    requires i < |h.fired| && i < |h.at|
  {
    Entries(handlers(h.fired[i].item, i).requests, h.at[i])
  }

  /** What interrupts number i, ..., j - 1 put on the list. */
  ghost function Requested(handlers: Handlers, h: History, i: nat, j: nat): Queue
    requires i <= j <= |h.fired| && j <= |h.at|
  {
    if i == j then [] else Requested(handlers, h, i, j - 1) + RequestedBy(handlers, h, j - 1)
  }

  lemma {:induction false} RequestedPrefix(handlers: Handlers, h: History, h': History, i: nat, j: nat)
    requires i <= j <= |h.fired| && j <= |h.at| && h.fired <= h'.fired && h.at <= h'.at
    ensures Requested(handlers, h', i, j) == Requested(handlers, h, i, j)
  {
    if i < j { RequestedPrefix(handlers, h, h', i, j - 1); }
  }

  lemma {:induction false} RequestedJoin(handlers: Handlers, h: History, i: nat, j: nat, k: nat)
    requires i <= j <= k <= |h.fired| && k <= |h.at|
    ensures Requested(handlers, h, i, k) == Requested(handlers, h, i, j) + Requested(handlers, h, j, k)
  {
    if j < k { RequestedJoin(handlers, h, i, j, k - 1); }
  }

  /** Since `h`, more has fired, and what those that fired asked for has been scheduled, no more. */
  ghost predicate Grown(handlers: Handlers, h: History, h': History) {
    && |h.at| == |h.fired| && |h'.at| == |h'.fired| && h.fired <= h'.fired && h.at <= h'.at
    && h'.scheduled == h.scheduled + Requested(handlers, h', |h.fired|, |h'.fired|)
  }

  lemma GrownNone(handlers: Handlers, h: History)
    requires |h.at| == |h.fired|
    ensures Grown(handlers, h, h)
  {
  }

  lemma GrownTransitive(handlers: Handlers, a: History, b: History, c: History)
    requires Grown(handlers, a, b) && Grown(handlers, b, c)
    ensures Grown(handlers, a, c)
  {
    RequestedPrefix(handlers, b, c, |a.fired|, |b.fired|);
    RequestedJoin(handlers, c, |a.fired|, |b.fired|, |c.fired|);
  }

  /** The history once an interrupt has fired and its handler's requests are on the list. */
  ghost function AfterFiring(handlers: Handlers, h: History, e: Keyed<Pending>, now: int): History {
    History(h.scheduled + Entries(handlers(e.item, |h.fired|).requests, now), h.fired + [e], h.at + [now])
  }

  /** An interrupt is off the list and has fired: what its handler asked for is on the history and,
      beside the rest `q`, on the list. */
  ghost predicate HasFired(handlers: Handlers, h: History, e: Keyed<Pending>, q: Queue, now: int, h': History, q': Queue) {
    && h' == AfterFiring(handlers, h, e, now)
    && multiset(q') == multiset(q) + multiset(Entries(handlers(e.item, |h.fired|).requests, now))
  }

  lemma GrownLonger(handlers: Handlers, h: History, h': History)
    requires Grown(handlers, h, h')
    ensures |h.fired| <= |h'.fired|
  {
  }

  lemma FiringGrows(handlers: Handlers, h: History, e: Keyed<Pending>, now: int)
    requires |h.at| == |h.fired|
    ensures Grown(handlers, h, AfterFiring(handlers, h, e, now))
  {
    var h' := AfterFiring(handlers, h, e, now);
    var n := |h.fired|;
    assert Requested(handlers, h', n, n) == [];
    assert Requested(handlers, h', n, n + 1) == RequestedBy(handlers, h', n);
  }

  /** A handler that fired after the first `from` asked for a yield. */
  ghost predicate Asked(handlers: Handlers, fired: Queue, from: nat) {
    exists i :: from <= i < |fired| && handlers(fired[i].item, i).wantsYield
  }

  lemma AskedNext(handlers: Handlers, fired: Queue, e: Keyed<Pending>, from: nat)
    requires from <= |fired|
    ensures Asked(handlers, fired + [e], from) <==> Asked(handlers, fired, from) || handlers(e.item, |fired|).wantsYield
  {
    var next := fired + [e];
    assert next[|fired|] == e;
    assert forall i :: 0 <= i < |fired| ==> next[i] == fired[i];
  }

  lemma AskedNone(handlers: Handlers, fired: Queue)
    ensures !Asked(handlers, fired, |fired|)
  {
  }

  /** What fired after the first `from` all fired at one time. */
  ghost predicate AllAt(at: seq<int>, from: nat, now: int) {
    forall i :: from <= i < |at| ==> at[i] == now
  }

  lemma StopSettled(q: Queue, r: Queue, now: int, status: Mode)
    requires Sorted(q) && multiset(r) == multiset(q) && |r| == |q|
    requires q == [] || q[0].key > now || (status == IdleMode && OnlyTimer(q))
    ensures Settled(r, now, status)
  {
    if q == [] || q[0].key > now {
      forall e | e in r
        ensures e.key > now
      {
        assert e in multiset(r);
        assert e in q;
      }
    } else {
      assert r[0] in multiset(r);
      assert r[0] in q;
    }
  }

  // ---------------------------------------------------------------- the hardware

  class Interrupt {
    const pending: List<Pending>
    const handlers: Handlers
    var level: bool
    var inHandler: bool
    var yieldOnReturn: bool
    var status: Mode
    var totalTicks: int
    var idleTicks: int
    var systemTicks: int
    var userTicks: int
    var calls: nat        // how many handlers have run
    ghost var history: History

    ghost predicate Valid()
      reads this, pending, pending.Nodes()
    {
      && pending.Valid() && LookAhead(handlers)
      && Good(history, pending.Contents(), totalTicks)
      && totalTicks == idleTicks + systemTicks + userTicks && calls == |history.fired|
    }

    constructor (handlers: Handlers)
      requires LookAhead(handlers)
      ensures Valid() && fresh(pending) && pending.Contents() == [] && history == History([], [], [])
      ensures fresh(pending.Nodes())
      ensures totalTicks == 0 && !level && !inHandler && !yieldOnReturn && status == SystemMode && this.handlers == handlers
    {
      this.handlers := handlers;
      pending := new List();
      level, inHandler, yieldOnReturn, status := false, false, false, SystemMode;
      totalTicks, idleTicks, systemTicks, userTicks := 0, 0, 0, 0;
      calls := 0;
      history := History([], [], []);
    }

    method Schedule(handler: nat, fromNow: int, kind: Kind)
      requires Valid() && fromNow > 0
      modifies this`history, pending, pending.Nodes()
      ensures Valid() && fresh(pending.Nodes() - old(pending.Nodes()))
      ensures var e := Keyed(Pending(handler, totalTicks + fromNow, kind), totalTicks + fromNow);
              && pending.Contents() == Inserted(old(pending.Contents()), e)
              && history == old(history).(scheduled := old(history).scheduled + [e])
      ensures Due(pending.Contents(), totalTicks) == Due(old(pending.Contents()), totalTicks)
    {
      hide LookAhead, Inserted, Due, Good;
      var when := totalTicks + fromNow;
      var toOccur := Pending(handler, when, kind);
      ghost var q := pending.Contents();
      pending.SortedInsert(toOccur, when);
      ScheduleGood(history, q, totalTicks, Keyed(toOccur, when));
      GoodSorted(history, q, totalTicks);
      DueAfterSchedule(q, totalTicks, Keyed(toOccur, when));
      history := history.(scheduled := history.scheduled + [Keyed(toOccur, when)]);
    }

    /** The call of a handler, which can neither enable interrupts nor pass time. */
    method CallHandler(p: Pending, n: nat)
      requires Valid() && inHandler
      modifies this`history, this`yieldOnReturn, pending, pending.Nodes()
      ensures Valid() && fresh(pending.Nodes() - old(pending.Nodes()))
      ensures var asked := Entries(handlers(p, n).requests, totalTicks);
              && history == old(history).(scheduled := old(history).scheduled + asked)
              && multiset(pending.Contents()) == multiset(old(pending.Contents())) + multiset(asked)
      ensures Due(pending.Contents(), totalTicks) == Due(old(pending.Contents()), totalTicks)
      ensures yieldOnReturn <==> old(yieldOnReturn) || handlers(p, n).wantsYield
    {
      hide LookAhead, Inserted, Due, Good, List.Valid, List.Contents, Entries;
      LooksAhead(handlers, p, n);
      var reaction := handlers(p, n);
      var i := 0;
      EntriesNone(reaction.requests, totalTicks);
      while i < |reaction.requests|
        invariant 0 <= i <= |reaction.requests| && Valid()
        invariant fresh(pending.Nodes() - old(pending.Nodes())) && yieldOnReturn == old(yieldOnReturn)
        invariant history == old(history).(scheduled := old(history).scheduled + Entries(reaction.requests[..i], totalTicks))
        invariant multiset(pending.Contents()) == multiset(old(pending.Contents())) + multiset(Entries(reaction.requests[..i], totalTicks))
        invariant Due(pending.Contents(), totalTicks) == Due(old(pending.Contents()), totalTicks)
      {
        var r := reaction.requests[i];
        InsertedKeeps(pending.Contents(), Entry(r, totalTicks));
        Schedule(r.handler, r.fromNow, r.kind);
        EntriesNext(reaction.requests, totalTicks, i);
        i := i + 1;
      }
      assert reaction.requests[..i] == reaction.requests;
      if reaction.wantsYield { yieldOnReturn := true; }
    }

    /** Put an interrupt that is not to fire yet back on the list. */
    method PutBack(toOccur: Keyed<Pending>)
      requires pending.Valid() && LookAhead(handlers) && totalTicks == idleTicks + systemTicks + userTicks
      requires calls == |history.fired| && Good(history, [toOccur] + pending.Contents(), totalTicks)
      modifies pending, pending.Nodes()
      ensures Valid() && fresh(pending.Nodes() - old(pending.Nodes()))
      ensures pending.Contents() == Inserted(old(pending.Contents()), toOccur)
    {
      ghost var q := pending.Contents();
      hide LookAhead, Inserted, Good, List.Valid, List.Contents;
      assert ([toOccur] + q)[1..] == q;
      PutBackGood(history, [toOccur] + q, totalTicks);
      FrontKey(history, [toOccur] + q, totalTicks);
      pending.SortedInsert(toOccur.item, toOccur.key);
    }

    /** Fire an interrupt that has been taken off the list. */
    method Fire(toOccur: Keyed<Pending>)
      requires pending.Valid() && LookAhead(handlers) && totalTicks == idleTicks + systemTicks + userTicks
      requires Good(history, [toOccur] + pending.Contents(), totalTicks) && toOccur.key <= totalTicks
      requires calls == |history.fired|
      modifies this`history, this`yieldOnReturn, this`calls, this`status, this`inHandler, pending, pending.Nodes()
      ensures Valid() && fresh(pending.Nodes() - old(pending.Nodes()))
      ensures HasFired(handlers, old(history), toOccur, old(pending.Contents()), totalTicks, history, pending.Contents())
      ensures Due(pending.Contents(), totalTicks) == Due(old(pending.Contents()), totalTicks)
      ensures status == old(status) && !inHandler
      ensures yieldOnReturn <==> old(yieldOnReturn) || handlers(toOccur.item, |old(history).fired|).wantsYield
    {
      hide LookAhead, Good, Due, List.Valid, List.Contents, Entries;
      ghost var q := pending.Contents();
      assert ([toOccur] + q)[1..] == q;
      FireGood(history, [toOccur] + q, totalTicks);
      var was := status;
      inHandler := true;
      status := SystemMode;
      history := history.(fired := history.fired + [toOccur], at := history.at + [totalTicks]);
      calls := calls + 1;
      CallHandler(toOccur.item, calls - 1);
      status := was;
      inHandler := false;
    }

    /** Fire the first pending interrupt if it is due, or bring the clock to it. */
    method CheckIfDue(advanceClock: bool) returns (fired: bool)
      requires Valid() && !level
      modifies this`history, this`yieldOnReturn, this`calls, this`status, this`inHandler, this`totalTicks, this`idleTicks
      modifies pending, pending.Nodes()
      ensures Valid() && fresh(pending.Nodes() - old(pending.Nodes()))
      ensures var q := old(pending.Contents());
              && totalTicks == (if advanceClock && q != [] && q[0].key > old(totalTicks) then q[0].key else old(totalTicks))
              && (fired <==> q != [] && q[0].key <= totalTicks && !(status == IdleMode && OnlyTimer(q)))
              && (if fired
                  then && HasFired(handlers, old(history), q[0], q[1..], totalTicks, history, pending.Contents())
                       && Due(pending.Contents(), totalTicks) + 1 == Due(q, totalTicks)
                       && (yieldOnReturn <==> old(yieldOnReturn) || handlers(q[0].item, |old(history).fired|).wantsYield)
                  else && history == old(history) && multiset(pending.Contents()) == multiset(q)
                       && |pending.Contents()| == |q| && yieldOnReturn == old(yieldOnReturn))
      ensures status == old(status) && inHandler == (!fired && old(inHandler))
    {
      hide LookAhead, Good, Due, Inserted, List.Valid, List.Contents, HasFired;
      ghost var q, h := pending.Contents(), history;
      var head := pending.SortedRemove();
      if head.None? {
        return false;
      }
      var toOccur := head.value;
      var when := toOccur.key;
      assert q == [toOccur] + pending.Contents();
      InsertedKeeps(q[1..], toOccur);
      TailCounts(q);
      if advanceClock && when > totalTicks {
        LaterGood(history, q, totalTicks, when);
        idleTicks := idleTicks + (when - totalTicks);
        totalTicks := when;
      } else if when > totalTicks {
        PutBack(toOccur);
        return false;
      }
      var nothingElse := pending.IsEmpty();
      if status == IdleMode && toOccur.item.kind == Timer && nothingElse {
        PutBack(toOccur);
        return false;
      }
      DueAfterFire(q, totalTicks);
      Fire(toOccur);
      return true;
    }

    /** `while (CheckIfDue(FALSE))`: it ends, although handlers schedule more, because they
        schedule for the future and fewer are due each time. */
    method FireAllDue()
      requires Valid() && !level
      modifies this`history, this`yieldOnReturn, this`calls, this`status, this`inHandler, this`totalTicks, this`idleTicks
      modifies pending, pending.Nodes()
      ensures Valid() && fresh(pending.Nodes() - old(pending.Nodes())) && Grown(handlers, old(history), history)
      ensures Settled(pending.Contents(), totalTicks, status)
      ensures totalTicks == old(totalTicks) && status == old(status) && idleTicks == old(idleTicks)
      ensures old(inHandler) || !inHandler
      ensures yieldOnReturn <==> old(yieldOnReturn) || Asked(handlers, history.fired, |old(history).fired|)
      ensures AllAt(history.at, |old(history).at|, totalTicks)
    {
      hide LookAhead, Good, Due, List.Valid, List.Contents, Asked, Grown, Entries;
      var more := true;
      ghost var from := |history.fired|;
      GoodLengths(history, pending.Contents(), totalTicks);
      GrownNone(handlers, history);
      AskedNone(handlers, history.fired);
      while more
        invariant Valid() && !level && fresh(pending.Nodes() - old(pending.Nodes())) && Grown(handlers, old(history), history)
        invariant !more ==> Settled(pending.Contents(), totalTicks, status)
        invariant totalTicks == old(totalTicks) && status == old(status) && idleTicks == old(idleTicks)
        invariant old(inHandler) || !inHandler
        invariant yieldOnReturn <==> old(yieldOnReturn) || Asked(handlers, history.fired, from)
        invariant from <= |history.fired| && AllAt(history.at, |old(history).at|, totalTicks)
        decreases if more then Due(pending.Contents(), totalTicks) + 1 else 0
      {
        ghost var q, h := pending.Contents(), history;
        GoodSorted(history, q, totalTicks);
        GoodLengths(history, q, totalTicks);
        more := CheckIfDue(false);
        if more {
          FiringGrows(handlers, h, q[0], totalTicks);
          GrownTransitive(handlers, old(history), h, history);
          AskedNext(handlers, h.fired, q[0], from);
        } else {
          StopSettled(q, pending.Contents(), totalTicks, status);
        }
      }
    }

    /** Advance the clock by a tick and fire what has become due. The caller yields if told to. */
    method OneTick() returns (wantsYield: bool)
      requires Valid()
      modifies this, pending, pending.Nodes()
      ensures Valid() && fresh(pending.Nodes() - old(pending.Nodes())) && Grown(handlers, old(history), history)
      ensures var step := if old(status) == SystemMode then SYSTEM_TICK else USER_TICK;
              && totalTicks == old(totalTicks) + step && idleTicks == old(idleTicks)
              && systemTicks == old(systemTicks) + (if old(status) == SystemMode then step else 0)
      ensures wantsYield <==> old(yieldOnReturn) || Asked(handlers, history.fired, |old(history).fired|)
      ensures AllAt(history.at, |old(history).at|, totalTicks)
      ensures Settled(pending.Contents(), totalTicks, status)
      ensures level && status == old(status) && !yieldOnReturn && (old(inHandler) || !inHandler)
    {
      hide LookAhead, Good, Settled, List.Valid, List.Contents, Asked, AllAt, Grown;
      if status == SystemMode {
        LaterGood(history, pending.Contents(), totalTicks, totalTicks + SYSTEM_TICK);
        totalTicks := totalTicks + SYSTEM_TICK;
        systemTicks := systemTicks + SYSTEM_TICK;
      } else {
        LaterGood(history, pending.Contents(), totalTicks, totalTicks + USER_TICK);
        totalTicks := totalTicks + USER_TICK;
        userTicks := userTicks + USER_TICK;
      }
      level := false;
      FireAllDue();
      level := true;
      wantsYield := yieldOnReturn;
      yieldOnReturn := false;
    }

    method SetLevel(now: bool) returns (was: bool, wantsYield: bool)
      requires Valid() && (now ==> !inHandler)
      modifies this, pending, pending.Nodes()
      ensures Valid() && fresh(pending.Nodes() - old(pending.Nodes())) && Grown(handlers, old(history), history)
      ensures was == old(level) && level == now && status == old(status) && (old(inHandler) || !inHandler)
      ensures if now && !was
              then && totalTicks == old(totalTicks) + (if old(status) == SystemMode then SYSTEM_TICK else USER_TICK)
                   && Settled(pending.Contents(), totalTicks, status) && AllAt(history.at, |old(history).at|, totalTicks)
                   && (wantsYield <==> old(yieldOnReturn) || Asked(handlers, history.fired, |old(history).fired|))
              else && totalTicks == old(totalTicks) && pending.Contents() == old(pending.Contents()) && history == old(history)
                   && !wantsYield && yieldOnReturn == old(yieldOnReturn)
    {
      hide LookAhead, Good, Settled, List.Valid, List.Contents, Asked, AllAt, Grown;
      GoodLengths(history, pending.Contents(), totalTicks);
      GrownNone(handlers, history);
      was, wantsYield := level, false;
      level := now;
      if now && !was {
        wantsYield := OneTick();
      }
    }

    /** Nothing is ready to run: bring the clock to the next interrupt and fire what is then due.
        With nothing pending, or nothing but the timer, the machine halts. */
    method Idle() returns (halts: bool)
      requires Valid() && !level && !inHandler
      modifies this, pending, pending.Nodes()
      ensures Valid() && fresh(pending.Nodes() - old(pending.Nodes())) && Grown(handlers, old(history), history)
      ensures halts <==> old(pending.Contents()) == [] || OnlyTimer(old(pending.Contents()))
      ensures !halts ==> |history.fired| > |old(history).fired| && status == SystemMode && !yieldOnReturn
                         && Settled(pending.Contents(), totalTicks, IdleMode)
      ensures halts ==> history == old(history) && status == IdleMode
      ensures var q := old(pending.Contents());
              totalTicks == if q != [] && q[0].key > old(totalTicks) then q[0].key else old(totalTicks)
      ensures !level && !inHandler
      ensures systemTicks == old(systemTicks) && userTicks == old(userTicks)
    {
      hide LookAhead, Good, Due, Settled, List.Valid, List.Contents, Grown, Entries;
      GoodLengths(history, pending.Contents(), totalTicks);
      GrownNone(handlers, history);
      status := IdleMode;
      var fired := CheckIfDue(true);
      if fired {
        ghost var h := history;
        FiringGrows(handlers, old(history), old(pending.Contents())[0], totalTicks);
        FireAllDue();
        GrownLonger(handlers, h, history);
        GrownTransitive(handlers, old(history), h, history);
        yieldOnReturn := false;
        status := SystemMode;
        return false;
      }
      return true;
    }
  }

  // ---------------------------------------------------------------- runs

  /** What the rest of the machine does to the interrupt hardware. */
  datatype Event =
    | Instruction                                            // a user instruction has been executed
    | Enable
    | Disable
    | NothingReady
    | DeviceStarts(handler: nat, fromNow: int, kind: Kind)

  /** What the devices start in a sequence of events. */
  function StartsIn(events: seq<Event>): seq<Request> {
    if events == [] then []
    else
      var rest, last := StartsIn(events[..|events| - 1]), events[|events| - 1];
      if last.DeviceStarts? then rest + [Request(last.handler, last.fromNow, last.kind)] else rest
  }

  lemma StartsNext(events: seq<Event>, n: nat)
    requires n < |events|
    ensures StartsIn(events[..n + 1]) ==
              if events[n].DeviceStarts?
              then StartsIn(events[..n]) + [Request(events[n].handler, events[n].fromNow, events[n].kind)]
              else StartsIn(events[..n])
  {
    assert events[..n + 1][..n] == events[..n];
  }

  /** Each was put on the list at some time up to now. */
  ghost predicate Placed(started: Queue, rs: seq<Request>, now: int) {
    && |started| == |rs|
    && forall i :: 0 <= i < |rs| ==>
         0 <= started[i].key - rs[i].fromNow <= now && started[i] == Entry(rs[i], started[i].key - rs[i].fromNow)
  }

  lemma PlacedNext(started: Queue, rs: seq<Request>, r: Request, now: int)
    requires Placed(started, rs, now) && now >= 0
    ensures Placed(started + [Entry(r, now)], rs + [r], now)
  {
  }

  lemma PlacedLater(started: Queue, rs: seq<Request>, now: int, later: int)
    requires Placed(started, rs, now) && now <= later
    ensures Placed(started, rs, later)
  {
  }

  /** Everything ever scheduled was started by a device or asked for by a handler that fired. */
  ghost predicate Sourced(handlers: Handlers, h: History, started: Queue) {
    && |h.at| == |h.fired|
    && multiset(h.scheduled) == multiset(started) + multiset(Requested(handlers, h, 0, |h.fired|))
  }

  lemma SourcedGrown(handlers: Handlers, h: History, h': History, started: Queue)
    requires Sourced(handlers, h, started) && Grown(handlers, h, h')
    ensures Sourced(handlers, h', started)
  {
    hide Requested;
    RequestedPrefix(handlers, h, h', 0, |h.fired|);
    RequestedJoin(handlers, h', 0, |h.fired|, |h'.fired|);
  }

  lemma SourcedStarted(handlers: Handlers, h: History, e: Keyed<Pending>, started: Queue)
    requires Sourced(handlers, h, started)
    ensures Sourced(handlers, h.(scheduled := h.scheduled + [e]), started + [e])
  {
    RequestedPrefix(handlers, h, h.(scheduled := h.scheduled + [e]), 0, |h.fired|);
  }

  // ---------------------------------------------------------------- interrupts that go on for ever

  function NumberOf(q: Queue, kind: Kind): nat {
    if q == [] then 0 else NumberOf(q[..|q| - 1], kind) + if q[|q| - 1].item.kind == kind then 1 else 0
  }

  function Asks(rs: seq<Request>, kind: Kind): nat {
    if rs == [] then 0 else Asks(rs[..|rs| - 1], kind) + if rs[|rs| - 1].kind == kind then 1 else 0
  }

  /** Whenever such an interrupt fires, its handler asks for the next one, and no other handler does:
      the timer, the poll of the keyboard, the poll of the network. */
  ghost predicate Perpetual(handlers: Handlers, kind: Kind) {
    forall p, n :: Asks(handlers(p, n).requests, kind) == if p.kind == kind then 1 else 0
  }

  lemma {:induction false} NumberJoin(a: Queue, b: Queue, kind: Kind)
    ensures NumberOf(a + b, kind) == NumberOf(a, kind) + NumberOf(b, kind)
  {
    if b == [] {
      assert a + b == a;
    } else {
      assert (a + b)[..|a + b| - 1] == a + b[..|b| - 1];
      NumberJoin(a, b[..|b| - 1], kind);
    }
  }

  lemma {:induction false} EntriesNumber(rs: seq<Request>, now: int, kind: Kind)
    ensures NumberOf(Entries(rs, now), kind) == Asks(rs, kind)
  {
    if rs != [] {
      var n := |rs| - 1;
      EntriesNumber(rs[..n], now, kind);
      EntriesNext(rs, now, n);
      assert rs[..n + 1] == rs;
      assert Entries(rs, now)[..n] == Entries(rs[..n], now);
    }
  }

  /** How many of a kind there are does not depend on the order. */
  lemma {:induction false} NumberPermuted(a: Queue, b: Queue, kind: Kind)
    requires multiset(a) == multiset(b)
    ensures NumberOf(a, kind) == NumberOf(b, kind)
    decreases |a|
  {
    if a == [] {
      assert |multiset(b)| == 0;
    } else {
      var n := |a| - 1;
      assert a[n] in multiset(b);
      var i :| 0 <= i < |b| && b[i] == a[n];
      NumberWithout(a, n, kind);
      NumberWithout(b, i, kind);
      NumberPermuted(a[..n] + a[n + 1..], b[..i] + b[i + 1..], kind);
    }
  }

  lemma NumberWithout(q: Queue, i: nat, kind: Kind)
    requires i < |q|
    ensures var rest := q[..i] + q[i + 1..];
            multiset(rest) == multiset(q) - multiset{q[i]} && NumberOf(q, kind) == NumberOf(rest, kind) + NumberOf([q[i]], kind)
  {
    hide NumberOf;
    var a, b := q[..i], q[i + 1..];
    assert q == a + ([q[i]] + b);
    NumberJoin(a, b, kind);
    NumberJoin(a, [q[i]] + b, kind);
    NumberJoin([q[i]], b, kind);
  }

  lemma {:induction false} RequestedNumber(handlers: Handlers, h: History, j: nat, kind: Kind)
    requires Perpetual(handlers, kind) && j <= |h.fired| && j <= |h.at|
    ensures NumberOf(Requested(handlers, h, 0, j), kind) == NumberOf(h.fired[..j], kind)
  {
    if j > 0 {
      RequestedNumber(handlers, h, j - 1, kind);
      NumberJoin(Requested(handlers, h, 0, j - 1), RequestedBy(handlers, h, j - 1), kind);
      EntriesNumber(handlers(h.fired[j - 1].item, j - 1).requests, h.at[j - 1], kind);
      assert h.fired[..j][..j - 1] == h.fired[..j - 1];
    }
  }

  /** Such interrupts never stop: as many are pending as devices have started. */
  lemma StillPending(handlers: Handlers, h: History, q: Queue, started: Queue, kind: Kind)
    requires Perpetual(handlers, kind) && Sourced(handlers, h, started) && Accounted(h, q)
    ensures NumberOf(q, kind) == NumberOf(started, kind)
  {
    hide Perpetual, NumberOf;
    RequestedNumber(handlers, h, |h.fired|, kind);
    assert h.fired[..|h.fired|] == h.fired;
    var asked := Requested(handlers, h, 0, |h.fired|);
    assert multiset(started + asked) == multiset(h.fired + q);
    NumberPermuted(started + asked, h.fired + q, kind);
    NumberJoin(started, asked, kind);
    NumberJoin(h.fired, q, kind);
  }

  // ---------------------------------------------------------------- every run

  /** From power-up, whatever the devices' handlers do: each interrupt fires at most once,
      never early, in the order of their times; every tick is idle, system or user time; and what
      has been scheduled is what the devices started and the handlers that fired asked for. */
  method Run(handlers: Handlers, events: seq<Event>) returns (machine: Interrupt, done: nat, ghost started: Queue)
    requires LookAhead(handlers)
    requires forall i :: 0 <= i < |events| && events[i].DeviceStarts? ==> events[i].fromNow > 0
    ensures fresh(machine) && machine.pending.Valid()
    ensures machine.totalTicks == machine.idleTicks + machine.systemTicks + machine.userTicks
    ensures var h := machine.history;
            && multiset(h.scheduled) == multiset(h.fired) + multiset(machine.pending.Contents())
            && Punctual(h, machine.totalTicks) && Sorted(h.fired) && Sourced(handlers, h, started)
    ensures done <= |events| && Placed(started, StartsIn(events[..done]), machine.totalTicks)
    ensures done < |events| ==> done > 0 && events[done - 1].NothingReady? && machine.status == IdleMode
    ensures forall kind :: Perpetual(handlers, kind) ==> NumberOf(machine.pending.Contents(), kind) == NumberOf(started, kind)
  {
    hide LookAhead, Settled, Good, Grown, Punctual, Sorted, List.Valid, List.Contents, Sourced, StartsIn, Placed, Inserted, Asked, AllAt, OnlyTimer, Due;
    machine := new Interrupt(handlers);
    started, done := [], 0;
    NothingYet(handlers);
    var halted := false;
    while done < |events| && !halted
      invariant fresh(machine) && fresh(machine.pending) && fresh(machine.pending.Nodes()) && machine.Valid() && !machine.inHandler
      invariant machine.handlers == handlers && machine.totalTicks >= 0 && done <= |events|
      invariant Sourced(handlers, machine.history, started)
      invariant Placed(started, StartsIn(events[..done]), machine.totalTicks)
      invariant halted ==> done > 0 && events[done - 1].NothingReady? && machine.status == IdleMode
      decreases |events| - done
    {
      StartsNext(events, done);
      ghost var h, now := machine.history, machine.totalTicks;
      GoodLengths(h, machine.pending.Contents(), now);
      GrownNone(handlers, h);
      match events[done] {
        case Instruction =>
          machine.status := UserMode;
          var _ := machine.OneTick();
          machine.status := SystemMode;
        case Enable => var _, _ := machine.SetLevel(true);
        case Disable => var _, _ := machine.SetLevel(false);
        case NothingReady => if !machine.level { halted := machine.Idle(); }
        case DeviceStarts(handler, fromNow, kind) =>
          ghost var r := Request(handler, fromNow, kind);
          SourcedStarted(handlers, h, Entry(r, now), started);
          PlacedNext(started, StartsIn(events[..done]), r, now);
          machine.Schedule(handler, fromNow, kind);
          started := started + [Entry(r, now)];
      }
      if !events[done].DeviceStarts? {
        SourcedGrown(handlers, h, machine.history, started);
        PlacedLater(started, StartsIn(events[..done]), now, machine.totalTicks);
      }
      done := done + 1;
    }
    GoodParts(machine.history, machine.pending.Contents(), machine.totalTicks);
    forall kind | Perpetual(handlers, kind)
      ensures NumberOf(machine.pending.Contents(), kind) == NumberOf(started, kind)
    {
      StillPending(handlers, machine.history, machine.pending.Contents(), started, kind);
    }
  }

  lemma NothingYet(handlers: Handlers)
    ensures Sourced(handlers, History([], [], []), []) && Placed([], StartsIn([]), 0)
  {
  }
}
