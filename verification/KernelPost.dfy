/** Mail between two machines, each with its own kernel (network/post.cc, machine/network.cc): in
    every interleaving that the two kernels produce, senders, worker and devices follow the mail
    over an atomic lock and atomic semaphores. */
module KernelPost {
  import opened Common
  import opened Kernels
  import opened KernelClients
  import M = PostOffices

  /** On the sending machine, sendLock and messageSent; on the receiving one, messageAvailable. */
  const LOCK: Lock := 0
  const SENT := Plain(0)
  const AVAILABLE := Plain(0)

  /** A thread of the sending machine: not sending, at the call of Send, or further on in it. */
  datatype Sender = Idle | Wants(l: M.Letter) | Sending(pc: M.SenderPc)

  /** The networks, the wire between them, and what the worker works on. */
  datatype Mail = Mail(numBoxes: nat, destination: Int32, sending: bool, sent: seq<M.Letter>, lost: nat, wire: seq<M.Transit>,
                       inLabel: M.Label, inbox: seq<Byte>, inOrigin: nat, buffer: seq<Byte>,
                       boxes: seq<seq<M.Letter>>, delivered: seq<nat>)

  /** The mail with one thread at work on it. */
  ghost function Scene(m: Mail, senders: map<Tid, M.SenderPc>, worker: M.WorkerPc): M.World {
    M.World(m.numBoxes, m.destination, senders, None, 0, m.sending, m.sent, m.lost, m.wire, m.inLabel, m.inbox, m.inOrigin,
            0, worker, m.buffer, m.boxes, m.delivered)
  }

  ghost function MailOf(w: M.World): Mail {
    Mail(w.numBoxes, w.destination, w.sending, w.sent, w.lost, w.wire, w.inLabel, w.inbox, w.inOrigin, w.buffer, w.boxes, w.delivered)
  }

  // ---------------------------------------------------------------- the code

  /** The calls of PostOffice::Send. */
  function SenderCall(x: Sender): Option<(Call, Sender)> {
    match x
    case Wants(l) => Some((Acquire(LOCK), Sending(M.Locked(l))))
    case Sending(Waiting) => Some((P(SENT.n), Sending(M.SenderPc.Told)))
    case Sending(Told) => Some((Release(LOCK), Idle))
    case _ => None
  }

  ghost predicate Transmits(m: Mail, l: M.Letter, dropped: bool, padding: seq<Byte>, data: Mail) {
    var w := Scene(m, map[0 := M.Locked(l)], M.Idle);
    var s := M.Transmit(0, dropped, padding);
    M.Formed(w) && M.Enabled(w, s) && data == MailOf(M.Next(w, s))
  }

  /** A thread decides to send a letter; in Send, it hands the packet to the network. */
  ghost predicate SenderWorks(x: Sender, m: Mail, next: Sender, data: Mail) {
    match x
    case Idle => next.Wants? && M.Sendable(next.l, m.numBoxes) && data == m
    case Sending(Locked(l)) => next == Sending(M.Waiting) && exists dropped, padding :: Transmits(m, l, dropped, padding, data)
    case _ => false
  }

  /** The network's interrupt after a send. */
  ghost predicate SendDone(m: Mail, n: nat, data: Mail) {
    n == SENT.n && m.sending && data == m.(sending := false)
  }

  ghost function Senders(): Code<Sender, Mail> {
    Code({OfLock(LOCK), SENT}, SenderCall, (x, m, next, data) => SenderWorks(x, m, next, data),
         (x, m, u, child, next, data) => false, (m, n, data) => SendDone(m, n, data))
  }

  /** The call of the postal worker. */
  function WorkerCall(x: M.WorkerPc): Option<(Call, M.WorkerPc)> {
    match x
    case Idle => Some((P(AVAILABLE.n), M.HasToken))
    case _ => None
  }

  /** The worker takes the packet from the network, or puts it into its box. */
  ghost predicate WorkerWorks(x: M.WorkerPc, m: Mail, next: M.WorkerPc, data: Mail) {
    var w := Scene(m, map[], x);
    var s := if x.HasToken? then M.Receive else M.Put;
    !x.Idle? && M.Formed(w) && next == M.Next(w, s).worker && data == MailOf(M.Next(w, s))
  }

  /** The network's poll finds a packet. */
  ghost predicate Polls(m: Mail, n: nat, data: Mail) {
    var w := Scene(m, map[], M.Idle);
    n == AVAILABLE.n && M.Formed(w) && M.Arrives(w) && data == MailOf(M.Next(w, M.Poll))
  }

  ghost function Receivers(): Code<M.WorkerPc, Mail> {
    Code({AVAILABLE}, WorkerCall, (x, m, next, data) => WorkerWorks(x, m, next, data),
         (x, m, u, child, next, data) => false, (m, n, data) => Polls(m, n, data))
  }

  // ---------------------------------------------------------------- over atomic ones

  type Sends = Atomic<Sender, Mail>
  type Gets = Atomic<M.WorkerPc, Mail>

  function PcOf(x: Sender): M.SenderPc {
    if x.Sending? then x.pc else M.Outside
  }

  ghost predicate ArePcs(locals: map<Tid, Sender>, pcs: map<Tid, M.SenderPc>) {
    pcs.Keys == locals.Keys && forall t :: t in locals ==> pcs[t] == PcOf(locals[t])
  }

  lemma PcsExist(locals: map<Tid, Sender>)
    ensures exists pcs :: ArePcs(locals, pcs)
  {
    var pcs := Tabulated(locals.Keys, t requires t in locals => PcOf(locals[t]));
    assert ArePcs(locals, pcs);
  }

  ghost function Pcs(locals: map<Tid, Sender>): (pcs: map<Tid, M.SenderPc>)
    ensures ArePcs(locals, pcs)
  {
    PcsExist(locals);
    var pcs :| ArePcs(locals, pcs);
    pcs
  }

  /** Both machines have what they need, and the worker is the one thread that receives. */
  ghost predicate Equipped(a: Sends, b: Gets, worker: Tid) {
    && LOCK in a.holder && SENT in a.value && AVAILABLE in b.value && b.locals.Keys == {worker} && b.shared == a.shared
    && forall t :: t in a.locals && a.locals[t].Wants? ==> M.Sendable(a.locals[t].l, a.shared.numBoxes)
  }

  ghost function View(a: Sends, b: Gets, worker: Tid): M.World
    requires Equipped(a, b, worker)
  {
    var m := a.shared;
    M.World(m.numBoxes, m.destination, Pcs(a.locals), a.holder[LOCK], a.value[SENT], m.sending, m.sent, m.lost, m.wire,
            m.inLabel, m.inbox, m.inOrigin, b.value[AVAILABLE], b.locals[worker], m.buffer, m.boxes, m.delivered)
  }

  /** Nothing happens to the mail, or one of its steps. */
  ghost predicate Moves(w: M.World, w': M.World) {
    w' == w || exists s :: M.Formed(w) && M.Enabled(w, s) && w' == M.Next(w, s)
  }

  lemma Moved(w: M.World, s: M.Step, w': M.World)
    requires M.Formed(w) && M.Enabled(w, s) && w' == M.Next(w, s)
    ensures Moves(w, w')
  {
  }

  /** What the other machine sees of an event. */
  ghost function Seen<L>(b: Atomic<L, Mail>, m: Mail): Atomic<L, Mail> { b.(shared := m) }

  lemma SenderCalls(a: Sends, b: Gets, worker: Tid, t: Tid)
    requires Equipped(a, b, worker) && M.Formed(View(a, b, worker)) && EventEnabled(Senders(), a, Calls(t))
    ensures var a' := EventNext(Senders(), a, Calls(t));
            && a'.shared == a.shared && Equipped(a', b, worker)
            && Moves(View(a, b, worker), View(a', b, worker))
  {
    hide M.Formed, M.Sendable, Moves;
    var a' := EventNext(Senders(), a, Calls(t));
    var x, v := a.locals[t], View(a, b, worker);
    assert Pcs(a'.locals) == Pcs(a.locals)[t := PcOf(a'.locals[t])];
    var s := if x.Wants? then M.Lock(t, x.l) else if x.pc.Waiting? then M.Step.Told(t) else M.Unlock(t);
    Moved(v, s, View(a', b, worker));
  }

  lemma SenderDoes(a: Sends, b: Gets, worker: Tid, t: Tid, next: Sender, data: Mail)
    requires Equipped(a, b, worker) && M.Formed(View(a, b, worker)) && EventEnabled(Senders(), a, Does(t, next, data))
    ensures var a' := EventNext(Senders(), a, Does(t, next, data));
            && Equipped(a', Seen(b, data), worker)
            && Moves(View(a, b, worker), View(a', Seen(b, data), worker))
  {
    hide M.Sendable, Moves, M.WireBytes;
    var a' := EventNext(Senders(), a, Does(t, next, data));
    var x, v := a.locals[t], View(a, b, worker);
    if x.Idle? {
      assert Pcs(a'.locals) == Pcs(a.locals);
      assert Moves(v, View(a', Seen(b, data), worker)) by { Unmoved(v); }
    } else {
      assert Pcs(a'.locals) == Pcs(a.locals)[t := PcOf(next)];
      var dropped, padding :| Transmits(a.shared, x.pc.l, dropped, padding, data);
      Moved(v, M.Transmit(t, dropped, padding), View(a', Seen(b, data), worker));
    }
  }

  lemma Unmoved(w: M.World)
    ensures Moves(w, w)
  {
  }

  lemma SenderFires(a: Sends, b: Gets, worker: Tid, n: nat, data: Mail)
    requires Equipped(a, b, worker) && M.Formed(View(a, b, worker)) && EventEnabled(Senders(), a, Fires(n, data))
    ensures var a' := EventNext(Senders(), a, Fires(n, data));
            && Equipped(a', Seen(b, data), worker)
            && Moves(View(a, b, worker), View(a', Seen(b, data), worker))
  {
    hide M.Formed, M.Sendable, Moves;
    Moved(View(a, b, worker), M.SendDone, View(EventNext(Senders(), a, Fires(n, data)), Seen(b, data), worker));
  }

  lemma WorkerCalls(a: Sends, b: Gets, worker: Tid, t: Tid)
    requires Equipped(a, b, worker) && M.Formed(View(a, b, worker)) && EventEnabled(Receivers(), b, Calls(t))
    ensures var b' := EventNext(Receivers(), b, Calls(t));
            && Equipped(a, b', worker) && Moves(View(a, b, worker), View(a, b', worker))
  {
    hide M.Formed, M.Sendable, Moves;
    assert t == worker;
    Moved(View(a, b, worker), M.TakeToken, View(a, EventNext(Receivers(), b, Calls(t)), worker));
  }

  lemma WorkerDoes(a: Sends, b: Gets, worker: Tid, t: Tid, next: M.WorkerPc, data: Mail)
    requires Equipped(a, b, worker) && M.Formed(View(a, b, worker)) && EventEnabled(Receivers(), b, Does(t, next, data))
    ensures var b' := EventNext(Receivers(), b, Does(t, next, data));
            && Equipped(Seen(a, data), b', worker) && Moves(View(a, b, worker), View(Seen(a, data), b', worker))
  {
    hide M.Sendable, Moves, M.Opened, M.Over;
    assert t == worker;
    var s := if b.locals[t].HasToken? then M.Receive else M.Put;
    Moved(View(a, b, worker), s, View(Seen(a, data), EventNext(Receivers(), b, Does(t, next, data)), worker));
  }

  lemma WorkerFires(a: Sends, b: Gets, worker: Tid, n: nat, data: Mail)
    requires Equipped(a, b, worker) && M.Formed(View(a, b, worker)) && EventEnabled(Receivers(), b, Fires(n, data))
    ensures var b' := EventNext(Receivers(), b, Fires(n, data));
            && Equipped(Seen(a, data), b', worker) && Moves(View(a, b, worker), View(Seen(a, data), b', worker))
  {
    hide M.Sendable, Moves, M.LabelAt, M.Over;
    Moved(View(a, b, worker), M.Poll, View(Seen(a, data), EventNext(Receivers(), b, Fires(n, data)), worker));
  }

  // ---------------------------------------------------------------- two kernels

  datatype Net = Net(k1: Kernel, senders: map<Tid, Where<Sender>>, k2: Kernel, receivers: map<Tid, Where<M.WorkerPc>>, mail: Mail)

  ghost function Left(n: Net): World<Sender, Mail> { World(n.k1, n.senders, n.mail) }

  ghost function Right(n: Net): World<M.WorkerPc, Mail> { World(n.k2, n.receivers, n.mail) }

  /** A step of either machine. */
  datatype NetStep = OnLeft(s: Step<Sender, Mail>) | OnRight(r: Step<M.WorkerPc, Mail>)

  ghost predicate NetCanStep(n: Net, s: NetStep, n': Net) {
    match s
    case OnLeft(x) =>
      CanStep(Senders(), Left(n), x, Left(n')) && n'.k2 == n.k2 && n'.receivers == n.receivers
    case OnRight(x) =>
      CanStep(Receivers(), Right(n), x, Right(n')) && n'.k1 == n.k1 && n'.senders == n.senders
  }

  ghost predicate NetGood(n: Net, init1: map<Sem, nat>, init2: map<Sem, nat>) {
    Good(Senders(), Left(n), init1) && Good(Receivers(), Right(n), init2)
  }

  ghost predicate NetInstalled(n: Net) {
    Installed(n.k1, {OfLock(LOCK), SENT}) && Installed(n.k2, {AVAILABLE})
  }

  ghost function Sent(n: Net): Sends
    requires NetInstalled(n)
  {
    Abs(Senders(), Left(n))
  }

  ghost function Got(n: Net): Gets
    requires NetInstalled(n)
  {
    Abs(Receivers(), Right(n))
  }

  /** The machine that does not take the step only sees what has become of the mail. */
  lemma OtherMachine<L(!new)>(code: Code<L, Mail>, w: World<L, Mail>, init: map<Sem, nat>, m: Mail)
    requires Good(code, w, init)
    ensures Good(code, w.(shared := m), init)
    ensures Installed(w.k, code.ours) && Abs(code, w.(shared := m)) == Abs(code, w).(shared := m)
  {
    GoodInstalled(code, w, init);
    hide KernelInvariants.Inv;
    var w' := w.(shared := m);
    assert forall t, s :: s in code.ours ==> UseOk(w, t, s) == UseOk(w', t, s);
    assert Places(w') == Places(w);
  }

  lemma SenderEvent(a: Sends, b: Gets, worker: Tid, e: Event<Sender, Mail>)
    requires Equipped(a, b, worker) && M.Formed(View(a, b, worker)) && EventEnabled(Senders(), a, e)
    ensures var a' := EventNext(Senders(), a, e);
            var b' := Seen(b, a'.shared);
            Equipped(a', b', worker) && Moves(View(a, b, worker), View(a', b', worker))
  {
    hide Equipped, View, Moves, M.Formed, SenderWorks, SendDone;
    match e
    case Does(t, next, data) => SenderDoes(a, b, worker, t, next, data);
    case Calls(t) =>
      SenderCalls(a, b, worker, t);
      assert Seen(b, a.shared) == b by { SameMail(a, b, worker); }
    case Fires(n, data) => SenderFires(a, b, worker, n, data);
    case Forks(_, _, _, _, _) =>
  }

  lemma SameMail(a: Sends, b: Gets, worker: Tid)
    requires Equipped(a, b, worker)
    ensures b.shared == a.shared
  {
  }

  lemma WorkerEvent(a: Sends, b: Gets, worker: Tid, e: Event<M.WorkerPc, Mail>)
    requires Equipped(a, b, worker) && M.Formed(View(a, b, worker)) && EventEnabled(Receivers(), b, e)
    ensures var b' := EventNext(Receivers(), b, e);
            var a' := Seen(a, b'.shared);
            Equipped(a', b', worker) && Moves(View(a, b, worker), View(a', b', worker))
  {
    hide Equipped, View, Moves, M.Formed, WorkerWorks, Polls;
    match e
    case Does(t, next, data) => WorkerDoes(a, b, worker, t, next, data);
    case Calls(t) =>
      WorkerCalls(a, b, worker, t);
      assert Seen(a, b.shared) == a by { SameMail(a, b, worker); }
    case Fires(n, data) => WorkerFires(a, b, worker, n, data);
    case Forks(_, _, _, _, _) =>
  }

  /** Every step of either machine is nothing, or one step of the mail. */
  ghost predicate NetFollows(n: Net, n': Net, worker: Tid)
    requires NetInstalled(n) && Equipped(Sent(n), Got(n), worker)
  {
    && NetInstalled(n') && Equipped(Sent(n'), Got(n'), worker)
    && Moves(View(Sent(n), Got(n), worker), View(Sent(n'), Got(n'), worker))
  }

  lemma LeftFollows(n: Net, s: Step<Sender, Mail>, n': Net, worker: Tid, init1: map<Sem, nat>, init2: map<Sem, nat>)
    requires NetGood(n, init1, init2) && NetCanStep(n, OnLeft(s), n')
    requires NetInstalled(n) && Equipped(Sent(n), Got(n), worker) && M.Formed(View(Sent(n), Got(n), worker))
    ensures NetGood(n', init1, init2) && NetFollows(n, n', worker)
  {
    hide Good, Abs, Equipped, View, Moves, M.Formed, Formed, Closed, PcKnown, StepEnabled, StepNext, Installed, EventEnabled, EventNext;
    StepFollows(Senders(), Left(n), s, init1);
    OtherMachine(Receivers(), Right(n), init2, n'.mail);
    assert Right(n') == Right(n).(shared := n'.mail);
    var a, a' := Sent(n), Sent(n');
    assert Got(n') == Seen(Got(n), a'.shared) by { MailInside(n'); }
    if a' == a {
      assert Got(n') == Got(n) by { SameMail(a, Got(n), worker); }
      Unmoved(View(a, Got(n), worker));
    } else {
      var e :| EventEnabled(Senders(), a, e) && a' == EventNext(Senders(), a, e);
      SenderEvent(a, Got(n), worker, e);
    }
  }

  lemma MailInside(n: Net)
    requires NetInstalled(n)
    ensures Sent(n).shared == n.mail && Got(n).shared == n.mail
  {
  }

  lemma RightFollows(n: Net, s: Step<M.WorkerPc, Mail>, n': Net, worker: Tid, init1: map<Sem, nat>, init2: map<Sem, nat>)
    requires NetGood(n, init1, init2) && NetCanStep(n, OnRight(s), n')
    requires NetInstalled(n) && Equipped(Sent(n), Got(n), worker) && M.Formed(View(Sent(n), Got(n), worker))
    ensures NetGood(n', init1, init2) && NetFollows(n, n', worker)
  {
    hide Good, Abs, Equipped, View, Moves, M.Formed, Formed, Closed, PcKnown, StepEnabled, StepNext, Installed, EventEnabled, EventNext;
    StepFollows(Receivers(), Right(n), s, init2);
    OtherMachine(Senders(), Left(n), init1, n'.mail);
    assert Left(n') == Left(n).(shared := n'.mail);
    var b, b' := Got(n), Got(n');
    assert Sent(n') == Seen(Sent(n), b'.shared) by { MailInside(n'); }
    if b' == b {
      assert Sent(n') == Sent(n) by { SameMail(Sent(n), b, worker); }
      Unmoved(View(Sent(n), b, worker));
    } else {
      var e :| EventEnabled(Receivers(), b, e) && b' == EventNext(Receivers(), b, e);
      WorkerEvent(Sent(n), b, worker, e);
    }
  }

  // ---------------------------------------------------------------- every run

  /** Nothing has been sent, the worker is about to wait, and the semaphores are at 0. */
  ghost predicate Begins(n: Net, init1: map<Sem, nat>, locks1: set<Lock>, init2: map<Sem, nat>, locks2: set<Lock>, worker: Tid) {
    && StartsAs(Senders(), Left(n), init1, locks1) && StartsAs(Receivers(), Right(n), init2, locks2)
    && init1[SENT] == 0 && init2[AVAILABLE] == 0
    && (forall t :: t in n.senders ==> n.senders[t] == At(Sender.Idle)) && n.receivers == map[worker := At(M.WorkerPc.Idle)]
    && |n.mail.inbox| == M.PACKET_SIZE && |n.mail.buffer| == M.PACKET_SIZE
    && n.mail == Mail(n.mail.numBoxes, n.mail.destination, false, [], 0, [], M.Label(0, 0, 0), n.mail.inbox, 0, n.mail.buffer,
                      n.mail.boxes, [])
    && |n.mail.boxes| == n.mail.numBoxes && (forall b :: 0 <= b < n.mail.numBoxes ==> n.mail.boxes[b] == [])
  }

  ghost predicate NetRun(run: seq<Net>, steps: seq<NetStep>, init1: map<Sem, nat>, locks1: set<Lock>, init2: map<Sem, nat>,
                         locks2: set<Lock>, worker: Tid)
  {
    && |run| == |steps| + 1 && Begins(run[0], init1, locks1, init2, locks2, worker)
    && forall i :: 0 <= i < |steps| ==> NetCanStep(run[i], steps[i], run[i + 1])
  }

  lemma BeginsGood(n: Net, init1: map<Sem, nat>, locks1: set<Lock>, init2: map<Sem, nat>, locks2: set<Lock>, worker: Tid)
    requires Begins(n, init1, locks1, init2, locks2, worker)
    ensures NetGood(n, init1, init2) && NetInstalled(n) && Equipped(Sent(n), Got(n), worker)
    ensures M.IsInitial(View(Sent(n), Got(n), worker))
  {
    hide Good;
    InitialGood(Senders(), Left(n), init1, locks1);
    InitialGood(Receivers(), Right(n), init2, locks2);
    GoodInstalled(Senders(), Left(n), init1);
    GoodInstalled(Receivers(), Right(n), init2);
    assert OfLock(LOCK) in init1 && SENT in init1 && AVAILABLE in init2 && LOCK in locks1;
    assert Sent(n).holder[LOCK].None? && Sent(n).value[SENT] == 0 && Got(n).value[AVAILABLE] == 0;
    assert Got(n).locals.Keys == {worker};
  }

  /** The mail on two kernels refines the mail over an atomic lock and atomic semaphores. */
  lemma {:induction false} RunFollows(run: seq<Net>, steps: seq<NetStep>, init1: map<Sem, nat>, locks1: set<Lock>,
                                      init2: map<Sem, nat>, locks2: set<Lock>, worker: Tid, k: nat)
    returns (mail: seq<M.World>, moves: seq<M.Step>)
    requires NetRun(run, steps, init1, locks1, init2, locks2, worker) && k < |run|
    ensures NetGood(run[k], init1, init2) && NetInstalled(run[k]) && Equipped(Sent(run[k]), Got(run[k]), worker)
    ensures |mail| == |moves| + 1 && M.IsRun(mail, moves, mail[0])
    ensures mail[|moves|] == View(Sent(run[k]), Got(run[k]), worker)
  {
    hide Begins, NetGood, NetInstalled, Equipped, View, NetCanStep, M.Formed, M.Enabled, M.Next, M.Inv, M.IsInitial;
    if k == 0 {
      BeginsGood(run[0], init1, locks1, init2, locks2, worker);
      mail, moves := [View(Sent(run[0]), Got(run[0]), worker)], [];
    } else {
      mail, moves := RunFollows(run, steps, init1, locks1, init2, locks2, worker, k - 1);
      M.RunKeeps(mail, moves, mail[0], |moves|);
      MailFormed(mail[|moves|]);
      assert NetCanStep(run[k - 1], steps[k - 1], run[k - 1 + 1]);
      match steps[k - 1] {
        case OnLeft(s) => LeftFollows(run[k - 1], s, run[k], worker, init1, init2);
        case OnRight(s) => RightFollows(run[k - 1], s, run[k], worker, init1, init2);
      }
      var v, v' := mail[|moves|], View(Sent(run[k]), Got(run[k]), worker);
      if v' != v {
        var s :| M.Formed(v) && M.Enabled(v, s) && v' == M.Next(v, s);
        mail, moves := mail + [v'], moves + [s];
      }
    }
  }

  lemma MailFormed(w: M.World)
    requires M.Inv(w)
    ensures M.Formed(w)
  {
  }

  /** On the two kernels, in every interleaving: a mailbox holds letters sent to it, whole, in the
      order in which they were sent, and none twice. */
  lemma MailInOrder(run: seq<Net>, steps: seq<NetStep>, init1: map<Sem, nat>, locks1: set<Lock>, init2: map<Sem, nat>,
                    locks2: set<Lock>, worker: Tid, k: nat, b: nat)
    requires NetRun(run, steps, init1, locks1, init2, locks2, worker) && k < |run| && b < run[k].mail.numBoxes
    ensures |run[k].mail.boxes| == run[k].mail.numBoxes
    ensures exists idx: seq<nat> ::
              M.IsSelection(idx, run[k].mail.boxes[b], run[k].mail.sent, b) && M.AllOf(idx, run[k].mail.sent, run[k].mail.delivered, b)
  {
    hide NetRun, M.IsRun, NetGood, M.IsSelection, M.Inv;
    var mail, moves := RunFollows(run, steps, init1, locks1, init2, locks2, worker, k);
    M.RunKeeps(mail, moves, mail[0], |moves|);
    MailFormed(mail[|moves|]);
    MailInside(run[k]);
    M.MailInOrder(mail, moves, mail[0], |moves|, b);
  }

  /** What the networks, the lock and the worker assert never fails on the kernels: Send has the
      lock that it releases and not the one that it acquires, a packet is sent only when none is
      going out, and what arrives is for the machine and fits. */
  lemma CallsAllowed(run: seq<Net>, steps: seq<NetStep>, init1: map<Sem, nat>, locks1: set<Lock>, init2: map<Sem, nat>,
                     locks2: set<Lock>, worker: Tid, k: nat)
    requires NetRun(run, steps, init1, locks1, init2, locks2, worker) && k < |run|
    requires run[k].k1.current in run[k].k1.threads && Turn(Left(run[k]))
    ensures var x := MyPlace(Left(run[k]));
            && (SenderCall(x).Some? ==> Formed(run[k].k1) && Kernels.Enabled(run[k].k1, ActionOf(SenderCall(x).value.0)))
            && (x.Sending? && x.pc.Locked? ==> !run[k].mail.sending)
  {
    hide NetRun, M.IsRun, Good, Formed, Kernels.Enabled, Places, Values;
    var n, me := run[k], run[k].k1.current;
    var mail, moves := RunFollows(run, steps, init1, locks1, init2, locks2, worker, k);
    M.RunKeeps(mail, moves, mail[0], |moves|);
    AtTurn(Left(n));
    var v, x := mail[|moves|], MyPlace(Left(n));
    assert me in v.senders && v.senders[me] == PcOf(x);
    SenderHolds(v, me);
    if SenderCall(x).Some? {
      CallAllowed(Senders(), Left(n), init1, SenderCall(x).value.0);
    }
  }

  lemma SenderHolds(w: M.World, t: Tid)
    requires M.Inv(w) && t in w.senders
    ensures w.senders[t].Outside? <==> w.sendLock != Some(t)
    ensures w.senders[t].Locked? ==> !w.sending
  {
  }
}
