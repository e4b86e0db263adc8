/** Mail from one machine to another: PostOffice::Send on one side, the wire, which keeps
    packets in order but may lose them, and the polled one-packet buffer and postal worker on
    the other (network/post.cc, machine/network.cc). */
module PostOffices {
  import opened Common
  import opened Encoding

  const HEADER_SIZE := 12       // of a PacketHeader and of a MailHeader: three words
  const WIRE_SIZE := 64
  const PACKET_SIZE := 52       // MaxPacketSize
  const MAIL_SIZE := 40         // MaxMailSize

  type Tid = nat

  /** The two kinds of header have the same shape. */
  datatype Label = Label(to: Int32, from: Int32, length: nat)

  /** A message as its sender gave it, and as its receiver gets it. */
  datatype Letter = Letter(machine: Int32, to: Int32, from: Int32, data: seq<Byte>)

  // ---------------------------------------------------------------- bytes

  function LabelBytes(h: Label): (bs: seq<Byte>)
    requires h.length <= PACKET_SIZE
    ensures |bs| == HEADER_SIZE
  {
    EncodeWords([Unsigned(h.to), Unsigned(h.from), h.length])
  }

  /** The header at the front of some bytes. */
  function LabelAt(bs: seq<Byte>): Label
    requires |bs| >= HEADER_SIZE
  {
    var ws := DecodeWords(bs[..HEADER_SIZE]);
    Label(Signed(ws[0]), Signed(ws[1]), ws[2])
  }

  lemma IntBack(x: Int32)
    ensures Signed(Unsigned(x)) == x
  {
  }

  lemma LabelRoundTrip(h: Label, rest: seq<Byte>)
    requires h.length <= PACKET_SIZE
    ensures LabelAt(LabelBytes(h) + rest) == h
  {
    hide EncodeWords, DecodeWords, Unsigned, Signed;
    var ws := [Unsigned(h.to), Unsigned(h.from), h.length];
    assert (LabelBytes(h) + rest)[..HEADER_SIZE] == EncodeWords(ws);
    IntBack(h.to);
    IntBack(h.from);
    WordsRoundTrip(ws);
  }

  predicate Sendable(l: Letter, boxes: nat) {
    |l.data| <= MAIL_SIZE && 0 <= l.to < boxes
  }

  /** MailHeader and data, which look like data to the network. */
  function Body(l: Letter): (bs: seq<Byte>)
    requires |l.data| <= MAIL_SIZE
    ensures |bs| == HEADER_SIZE + |l.data|
  {
    LabelBytes(Label(l.to, l.from, |l.data|)) + l.data
  }

  /** The header that Send fills in for the network. */
  function PacketLabel(l: Letter, destination: Int32): Label {
    Label(destination, l.machine, |l.data| + HEADER_SIZE)
  }

  /** What goes out on the wire: padded, with whatever was in memory. */
  ghost predicate OnWire(bytes: seq<Byte>, l: Letter, destination: Int32) {
    && |l.data| <= MAIL_SIZE && |bytes| == WIRE_SIZE
    && bytes[..HEADER_SIZE] == LabelBytes(PacketLabel(l, destination))
    && bytes[HEADER_SIZE..HEADER_SIZE + |Body(l)|] == Body(l)
  }

  function WireBytes(l: Letter, destination: Int32, padding: seq<Byte>): seq<Byte>
    requires |l.data| <= MAIL_SIZE && |padding| == WIRE_SIZE
  {
    LabelBytes(PacketLabel(l, destination)) + Body(l) + padding[HEADER_SIZE + |Body(l)|..]
  }

  lemma WireBytesOnWire(l: Letter, destination: Int32, padding: seq<Byte>)
    requires |l.data| <= MAIL_SIZE && |padding| == WIRE_SIZE
    ensures OnWire(WireBytes(l, destination, padding), l, destination)
  {
  }

  /** The letter in a buffer that begins with its bytes. */
  ghost predicate Holds(buffer: seq<Byte>, l: Letter) {
    |l.data| <= MAIL_SIZE && |buffer| == PACKET_SIZE && buffer[..|Body(l)|] == Body(l)
  }

  function Opened(machine: Int32, buffer: seq<Byte>): Option<Letter>
    requires |buffer| == PACKET_SIZE
  {
    var h := LabelAt(buffer);
    if h.length <= MAIL_SIZE then Some(Letter(machine, h.to, h.from, buffer[HEADER_SIZE..HEADER_SIZE + h.length])) else None
  }

  /** What was sent is what is opened, whatever else is in the buffer. */
  lemma OpenedIsSent(buffer: seq<Byte>, l: Letter)
    requires Holds(buffer, l)
    ensures Opened(l.machine, buffer) == Some(l)
  {
    var h := Label(l.to, l.from, |l.data|);
    assert buffer == LabelBytes(h) + buffer[HEADER_SIZE..] by {
      assert buffer[..HEADER_SIZE] == buffer[..|Body(l)|][..HEADER_SIZE] == LabelBytes(h);
    }
    LabelRoundTrip(h, buffer[HEADER_SIZE..]);
    assert buffer[HEADER_SIZE..HEADER_SIZE + |l.data|] == buffer[..|Body(l)|][HEADER_SIZE..] == l.data;
  }

  lemma LabelOnWire(bytes: seq<Byte>, l: Letter, destination: Int32)
    requires OnWire(bytes, l, destination)
    ensures LabelAt(bytes) == PacketLabel(l, destination)
  {
    assert bytes == LabelBytes(PacketLabel(l, destination)) + bytes[HEADER_SIZE..];
    LabelRoundTrip(PacketLabel(l, destination), bytes[HEADER_SIZE..]);
  }

  // ---------------------------------------------------------------- the two machines

  /** A packet on the wire. `origin` says which of the letters sent it is. */
  datatype Transit = Transit(origin: nat, bytes: seq<Byte>)

  /** Where a thread is in Send: it has the lock, its packet is out and it waits for the
      interrupt, or it has been told to go on. */
  datatype SenderPc = Outside | Locked(l: Letter) | Waiting | Told

  /** Where the postal worker is: waiting, past P, or with a packet in its buffer. */
  datatype WorkerPc = Idle | HasToken | HasPacket(tag: Label, origin: nat)

  datatype World = World(
    numBoxes: nat,
    destination: Int32,
    // the sending machine
    senders: map<Tid, SenderPc>,
    sendLock: Option<Tid>,
    messageSent: nat,
    sending: bool,              // a send interrupt is due
    sent: seq<Letter>,
    lost: nat,
    wire: seq<Transit>,
    // the receiving machine
    inLabel: Label,             // inHdr: no packet is buffered when its length is 0
    inbox: seq<Byte>,
    inOrigin: nat,
    messageAvailable: nat,
    worker: WorkerPc,
    buffer: seq<Byte>,
    boxes: seq<seq<Letter>>,
    delivered: seq<nat>)        // which letters, in the order of delivery

  /** Nobody is sending, nothing has been sent, and the worker is about to wait. */
  ghost predicate IsInitial(w: World) {
    && (forall t :: t in w.senders ==> w.senders[t].Outside?) && w.sendLock.None? && w.messageSent == 0
    && !w.sending && w.sent == [] && w.lost == 0 && w.wire == []
    && w.inLabel == Label(0, 0, 0) && |w.inbox| == PACKET_SIZE && w.inOrigin == 0 && w.messageAvailable == 0
    && w.worker == Idle && |w.buffer| == PACKET_SIZE
    && |w.boxes| == w.numBoxes && (forall b :: 0 <= b < w.numBoxes ==> w.boxes[b] == []) && w.delivered == []
  }

  datatype Step =
    | Lock(t: Tid, l: Letter)
    | Transmit(t: Tid, dropped: bool, padding: seq<Byte>)
    | SendDone
    | Told(t: Tid)
    | Unlock(t: Tid)
    | Poll                      // CheckPktAvail
    | TakeToken                 // the worker's P returns
    | Receive
    | Put

  predicate Enabled(w: World, s: Step) {
    match s
    case Lock(t, l) => t in w.senders && w.senders[t].Outside? && w.sendLock.None? && Sendable(l, w.numBoxes)
    case Transmit(t, _, padding) => t in w.senders && w.senders[t].Locked? && |padding| == WIRE_SIZE && |w.senders[t].l.data| <= MAIL_SIZE
    case SendDone => w.sending
    case Told(t) => t in w.senders && w.senders[t].Waiting? && w.messageSent > 0
    case Unlock(t) => t in w.senders && w.senders[t].Told?
    case Poll => true
    case TakeToken => w.worker.Idle? && w.messageAvailable > 0
    case Receive => w.worker.HasToken?
    case Put => w.worker.HasPacket?
  }

  /** The machine polls only into an empty buffer, and only if something has come, which it
      asserts to be for itself and not too long. */
  predicate Arrives(w: World) {
    && w.inLabel.length == 0 && w.wire != [] && |w.wire[0].bytes| == WIRE_SIZE
    && LabelAt(w.wire[0].bytes).to == w.destination && LabelAt(w.wire[0].bytes).length <= PACKET_SIZE
  }

  /** bcopy of the front of a packet over the front of a buffer. */
  function Over(front: seq<Byte>, buffer: seq<Byte>): seq<Byte>
    requires |front| <= |buffer|
  {
    front + buffer[|front|..]
  }

  ghost predicate Formed(w: World) {
    |w.inbox| == PACKET_SIZE && |w.buffer| == PACKET_SIZE && |w.boxes| == w.numBoxes && w.inLabel.length <= PACKET_SIZE
  }

  /** The letter in the worker's hands, as the worker reads it. */
  function InHand(w: World): Option<Letter>
    requires w.worker.HasPacket? && |w.buffer| == PACKET_SIZE
  {
    Opened(w.worker.tag.from, w.buffer)
  }

  function Next(w: World, s: Step): World
    requires Formed(w) && Enabled(w, s)
  {
    match s
    case Lock(t, l) => w.(sendLock := Some(t), senders := w.senders[t := Locked(l)])
    case Transmit(t, dropped, padding) =>
      var l := w.senders[t].l;
      w.(senders := w.senders[t := Waiting], sending := true, sent := w.sent + [l],
         lost := if dropped then w.lost + 1 else w.lost,
         wire := if dropped then w.wire else w.wire + [Transit(|w.sent|, WireBytes(l, w.destination, padding))])
    case SendDone => w.(sending := false, messageSent := w.messageSent + 1)
    case Told(t) => w.(messageSent := w.messageSent - 1, senders := w.senders[t := SenderPc.Told])
    case Unlock(t) => w.(sendLock := None, senders := w.senders[t := Outside])
    case Poll =>
      if Arrives(w) then
        var packet := w.wire[0];
        var tag := LabelAt(packet.bytes);
        w.(wire := w.wire[1..], inLabel := tag, inOrigin := packet.origin,
           inbox := Over(packet.bytes[HEADER_SIZE..HEADER_SIZE + tag.length], w.inbox),
           messageAvailable := w.messageAvailable + 1)
      else w
    case TakeToken => w.(messageAvailable := w.messageAvailable - 1, worker := HasToken)
    case Receive =>
      w.(worker := HasPacket(w.inLabel, w.inOrigin), inLabel := w.inLabel.(length := 0),
         buffer := Over(w.inbox[..w.inLabel.length], w.buffer))
    case Put =>
      var l := InHand(w);
      if l.Some? && 0 <= l.value.to < w.numBoxes then
        w.(worker := Idle, boxes := w.boxes[l.value.to := w.boxes[l.value.to] + [l.value]],
           delivered := w.delivered + [w.worker.origin])
      else w
  }

  // ---------------------------------------------------------------- what every step keeps

  function Origins(wire: seq<Transit>): seq<nat> {
    seq(|wire|, i requires 0 <= i < |wire| => wire[i].origin)
  }

  /** The letters on their way or there, oldest first: delivered, in the worker's hands, in
      the machine's buffer, on the wire. */
  function Line(w: World): seq<nat> {
    w.delivered
    + (if w.worker.HasPacket? then [w.worker.origin] else [])
    + (if w.inLabel.length != 0 then [w.inOrigin] else [])
    + Origins(w.wire)
  }

  ghost predicate Increasing(s: seq<nat>, bound: nat) {
    && (forall i, j :: 0 <= i < j < |s| ==> s[i] < s[j])
    && (forall i :: 0 <= i < |s| ==> s[i] < bound)
  }

  /** Letters keep their order; none is on its way twice; and what is not on its way is lost. */
  ghost predicate InLine(w: World) {
    Increasing(Line(w), |w.sent|) && |Line(w)| + w.lost == |w.sent|
  }

  /** The semaphore and the worker's token account for the one buffered packet. */
  ghost predicate Tokens(w: World) {
    w.messageAvailable + Unit(w.worker.HasToken?) == Unit(w.inLabel.length != 0)
  }

  /** Wherever a letter is, its bytes are there. */
  ghost predicate Intact(w: World) {
    && (forall i :: 0 <= i < |w.wire| ==> w.wire[i].origin < |w.sent| && OnWire(w.wire[i].bytes, w.sent[w.wire[i].origin], w.destination))
    && (w.inLabel.length != 0 ==> w.inOrigin < |w.sent| && Holds(w.inbox, w.sent[w.inOrigin])
                                  && w.inLabel == PacketLabel(w.sent[w.inOrigin], w.destination))
    && (w.worker.HasPacket? ==> w.worker.origin < |w.sent| && Holds(w.buffer, w.sent[w.worker.origin])
                                && w.worker.tag == PacketLabel(w.sent[w.worker.origin], w.destination))
    && (forall i :: 0 <= i < |w.sent| ==> Sendable(w.sent[i], w.numBoxes))
  }

  /** The letters among these that are for a box, in order. */
  function For(b: int, sent: seq<Letter>, which: seq<nat>): seq<Letter>
    requires forall i :: 0 <= i < |which| ==> which[i] < |sent|
  {
    if which == [] then []
    else
      var last := which[|which| - 1];
      For(b, sent, which[..|which| - 1]) + (if sent[last].to == b then [sent[last]] else [])
  }

  /** Each box holds the letters delivered that are for it. */
  ghost predicate Sorted(w: World) {
    && (forall i :: 0 <= i < |w.delivered| ==> w.delivered[i] < |w.sent|)
    && |w.boxes| == w.numBoxes
    && forall b :: 0 <= b < w.numBoxes ==> w.boxes[b] == For(b, w.sent, w.delivered)
  }

  /** One thread at a time sends, and is told when its own interrupt has come. */
  ghost predicate Senders(w: World) {
    && (forall t :: t in w.senders ==> (w.senders[t].Outside? <==> w.sendLock != Some(t)))
    && (w.sendLock.Some? ==> w.sendLock.value in w.senders)
    && (forall t :: t in w.senders && w.senders[t].Locked? ==> Sendable(w.senders[t].l, w.numBoxes))
    && w.messageSent + Unit(w.sending) == Unit(w.sendLock.Some? && w.senders[w.sendLock.value].Waiting?)
  }

  ghost predicate Inv(w: World) {
    Formed(w) && InLine(w) && Tokens(w) && Intact(w) && Sorted(w) && Senders(w)
  }

  // ---------------------------------------------------------------- sending

  lemma {:induction false} ForGrows(b: int, sent: seq<Letter>, l: Letter, which: seq<nat>)
    requires forall i :: 0 <= i < |which| ==> which[i] < |sent|
    ensures For(b, sent + [l], which) == For(b, sent, which)
  {
    if which != [] { ForGrows(b, sent, l, which[..|which| - 1]); }
  }

  lemma TransmitLine(w: World, s: Step)
    requires Formed(w) && InLine(w) && s.Transmit? && Enabled(w, s)
    ensures InLine(Next(w, s))
  {
    var w' := Next(w, s);
    if s.dropped {
      assert Line(w') == Line(w);
    } else {
      assert Line(w') == Line(w) + [|w.sent|];
    }
  }

  lemma TransmitIntact(w: World, s: Step)
    requires Formed(w) && Intact(w) && Senders(w) && s.Transmit? && Enabled(w, s)
    ensures Intact(Next(w, s))
  {
    hide OnWire, WireBytes, Holds, Sendable;
    var l := w.senders[s.t].l;
    assert Sendable(l, w.numBoxes);
    WireBytesOnWire(l, w.destination, s.padding);
  }

  lemma TransmitSorted(w: World, s: Step)
    requires Formed(w) && Sorted(w) && s.Transmit? && Enabled(w, s)
    ensures Sorted(Next(w, s))
  {
    hide For, WireBytes;
    var l := w.senders[s.t].l;
    forall b | 0 <= b < w.numBoxes
      ensures For(b, w.sent + [l], w.delivered) == For(b, w.sent, w.delivered)
    {
      ForGrows(b, w.sent, l, w.delivered);
    }
  }

  lemma SenderKeeps(w: World, s: Step)
    requires Formed(w) && Senders(w) && Enabled(w, s)
    ensures Senders(Next(w, s)) && (s.Transmit? ==> !w.sending && w.messageSent == 0)
  {
    hide Opened, LabelAt, WireBytes, Over, Sendable;
  }

  // ---------------------------------------------------------------- receiving

  /** What the machine asserts of an arriving packet holds. */
  lemma ArrivesIf(w: World)
    requires Intact(w)
    ensures Arrives(w) <==> w.inLabel.length == 0 && w.wire != []
  {
    if w.wire != [] {
      LabelOnWire(w.wire[0].bytes, w.sent[w.wire[0].origin], w.destination);
    }
  }

  lemma CopiedIn(bytes: seq<Byte>, l: Letter, destination: Int32, inbox: seq<Byte>)
    requires OnWire(bytes, l, destination) && |inbox| == PACKET_SIZE
    ensures var n := LabelAt(bytes).length;
            n == |Body(l)| && HEADER_SIZE + n <= |bytes| && n <= PACKET_SIZE
            && Holds(Over(bytes[HEADER_SIZE..HEADER_SIZE + n], inbox), l)
  {
    LabelOnWire(bytes, l, destination);
  }

  lemma CopiedOut(inbox: seq<Byte>, l: Letter, destination: Int32, buffer: seq<Byte>)
    requires Holds(inbox, l) && |buffer| == PACKET_SIZE
    ensures Holds(Over(inbox[..PacketLabel(l, destination).length], buffer), l)
  {
  }

  lemma OriginsTail(wire: seq<Transit>)
    requires wire != []
    ensures Origins(wire) == [wire[0].origin] + Origins(wire[1..])
  {
  }

  lemma PollKeeps(w: World)
    requires Inv(w) && Arrives(w)
    ensures var w' := Next(w, Poll);
            Formed(w') && InLine(w') && Tokens(w') && Intact(w') && Sorted(w') && Line(w') == Line(w)
  {
    hide OnWire, Holds, LabelAt, Over, Sendable, For, Senders, Opened, Origins;
    var w' := Next(w, Poll);
    var packet := w.wire[0];
    var l := w.sent[packet.origin];
    CopiedIn(packet.bytes, l, w.destination, w.inbox);
    LabelOnWire(packet.bytes, l, w.destination);
    OriginsTail(w.wire);
    assert Line(w') == Line(w);
  }

  lemma ReceiveKeeps(w: World)
    requires Inv(w) && w.worker.HasToken?
    ensures var w' := Next(w, Receive);
            Formed(w') && InLine(w') && Tokens(w') && Intact(w') && Sorted(w') && Line(w') == Line(w)
  {
    hide OnWire, Holds, Over, Sendable, For, Senders, Origins, InHand, LabelAt;
    var w' := Next(w, Receive);
    assert w.inLabel.length != 0;
    var l := w.sent[w.inOrigin];
    CopiedOut(w.inbox, l, w.destination, w.buffer);
    assert Line(w') == Line(w);
  }

  /** What the worker asserts of the packet holds, and what it opens is what was sent. */
  lemma InHandIsSent(w: World)
    requires Formed(w) && Intact(w) && w.worker.HasPacket?
    ensures InHand(w) == Some(w.sent[w.worker.origin]) && Sendable(w.sent[w.worker.origin], w.numBoxes)
  {
    OpenedIsSent(w.buffer, w.sent[w.worker.origin]);
  }

  lemma PutSorted(w: World)
    requires Formed(w) && Intact(w) && Sorted(w) && w.worker.HasPacket?
    ensures Sorted(Next(w, Put))
  {
    InHandIsSent(w);
    var w' := Next(w, Put);
    var o := w.worker.origin;
    assert w'.delivered[..|w'.delivered| - 1] == w.delivered;
    hide Opened, OnWire, Holds;
  }

  lemma PutKeeps(w: World)
    requires Inv(w) && w.worker.HasPacket?
    ensures var w' := Next(w, Put);
            Formed(w') && InLine(w') && Tokens(w') && Intact(w') && Sorted(w') && !w'.worker.HasPacket? && Line(w') == Line(w)
  {
    hide InHand, OnWire, Holds, Sorted, Senders, For, Over, LabelAt, Origins;
    InHandIsSent(w);
    PutSorted(w);
    var w' := Next(w, Put);
    assert Line(w') == Line(w);
  }

  lemma StepKeeps(w: World, s: Step)
    requires Inv(w) && Enabled(w, s)
    ensures Inv(Next(w, s))
  {
    SenderKeeps(w, s);
    match s
    case Transmit(_, _, _) =>
      TransmitLine(w, s);
      TransmitIntact(w, s);
      TransmitSorted(w, s);
    case Poll => if Arrives(w) { PollKeeps(w); }
    case Receive => ReceiveKeeps(w);
    case Put => PutKeeps(w);
    case _ =>
      assert Line(Next(w, s)) == Line(w);
  }

  // ---------------------------------------------------------------- every run

  ghost predicate IsRun(run: seq<World>, steps: seq<Step>, start: World) {
    && IsInitial(start) && |run| == |steps| + 1 && run[0] == start
    && forall k :: 0 <= k < |steps| ==> Formed(run[k]) && Enabled(run[k], steps[k]) && run[k + 1] == Next(run[k], steps[k])
  }

  lemma {:induction false} RunKeeps(run: seq<World>, steps: seq<Step>, start: World, k: nat)
    requires IsRun(run, steps, start) && k < |run|
    ensures Inv(run[k])
  {
    if k > 0 {
      RunKeeps(run, steps, start, k - 1);
      StepKeeps(run[k - 1], steps[k - 1]);
    }
  }

  /** A buffered packet always has its token, waiting in the semaphore or taken by the worker;
      so no packet is read in over another. */
  lemma OneTokenPerPacket(run: seq<World>, steps: seq<Step>, start: World, k: nat)
    requires IsRun(run, steps, start) && k < |run|
    ensures run[k].messageAvailable + Unit(run[k].worker.HasToken?) == Unit(run[k].inLabel.length != 0)
    ensures run[k].worker.HasToken? ==> run[k].inLabel.length != 0
  {
    RunKeeps(run, steps, start, k);
  }

  /** What the machines and the worker assert of packets never fails: a packet is sent only
      when the network is free, and what arrives is for this machine and fits. */
  lemma AssertionsHold(run: seq<World>, steps: seq<Step>, start: World, k: nat)
    requires IsRun(run, steps, start) && k < |run|
    ensures Formed(run[k])
    ensures run[k].inLabel.length == 0 && run[k].wire != [] ==> Arrives(run[k])
    ensures forall t :: t in run[k].senders && run[k].senders[t].Locked? ==>
              !run[k].sending && 0 < PacketLabel(run[k].senders[t].l, run[k].destination).length <= PACKET_SIZE
    ensures run[k].worker.HasPacket? ==> InHand(run[k]).Some? && 0 <= InHand(run[k]).value.to < run[k].numBoxes
  {
    RunKeeps(run, steps, start, k);
    ArrivesIf(run[k]);
    if run[k].worker.HasPacket? { InHandIsSent(run[k]); }
  }

  /** Indices of the letters for a box among those delivered. */
  function IndicesFor(b: int, sent: seq<Letter>, which: seq<nat>): (idx: seq<nat>)
    requires forall i :: 0 <= i < |which| ==> which[i] < |sent|
  {
    if which == [] then []
    else
      var last := which[|which| - 1];
      IndicesFor(b, sent, which[..|which| - 1]) + (if sent[last].to == b then [last] else [])
  }

  lemma {:induction false} ForByIndices(b: int, sent: seq<Letter>, which: seq<nat>)
    requires Increasing(which, |sent|)
    ensures var idx := IndicesFor(b, sent, which);
            && Increasing(idx, |sent|) && |idx| == |For(b, sent, which)|
            && (forall i :: 0 <= i < |idx| ==> idx[i] in which && sent[idx[i]].to == b && For(b, sent, which)[i] == sent[idx[i]])
  {
    if which != [] {
      var front := which[..|which| - 1];
      ForByIndices(b, sent, front);
    }
  }

  lemma {:induction false} IndicesComplete(b: int, sent: seq<Letter>, which: seq<nat>, j: nat)
    requires j < |which| && (forall i :: 0 <= i < |which| ==> which[i] < |sent|) && sent[which[j]].to == b
    ensures which[j] in IndicesFor(b, sent, which)
  {
    var n := |which| - 1;
    if j < n {
      IndicesComplete(b, sent, which[..n], j);
    }
  }

  /** The letters in a mailbox are letters sent to it, whole, in the order in which they were
      sent, and none twice: those that have been delivered, all of them. */
  lemma MailInOrder(run: seq<World>, steps: seq<Step>, start: World, k: nat, b: nat)
    requires IsRun(run, steps, start) && k < |run| && b < run[k].numBoxes && |run[k].boxes| == run[k].numBoxes
    ensures exists idx: seq<nat> ::
              IsSelection(idx, run[k].boxes[b], run[k].sent, b) && AllOf(idx, run[k].sent, run[k].delivered, b)
  {
    RunKeeps(run, steps, start, k);
    var w := run[k];
    DeliveredIncreasing(w);
    ForByIndices(b, w.sent, w.delivered);
    var idx := IndicesFor(b, w.sent, w.delivered);
    forall j | 0 <= j < |w.delivered| && w.sent[w.delivered[j]].to == b
      ensures w.delivered[j] in idx
    {
      IndicesComplete(b, w.sent, w.delivered, j);
    }
    assert IsSelection(idx, w.boxes[b], w.sent, b) && AllOf(idx, w.sent, w.delivered, b);
  }

  /** Those of the letters delivered that were for the box. */
  ghost predicate AllOf(idx: seq<nat>, sent: seq<Letter>, delivered: seq<nat>, b: int) {
    && (forall i :: 0 <= i < |idx| ==> idx[i] in delivered)
    && forall j :: 0 <= j < |delivered| ==> delivered[j] < |sent| && (sent[delivered[j]].to == b ==> delivered[j] in idx)
  }

  ghost predicate IsSelection(idx: seq<nat>, box: seq<Letter>, sent: seq<Letter>, b: int) {
    && Increasing(idx, |sent|) && |idx| == |box|
    && forall i :: 0 <= i < |idx| ==> box[i] == sent[idx[i]] && sent[idx[i]].to == b
  }

  lemma DeliveredIncreasing(w: World)
    requires InLine(w)
    ensures Increasing(w.delivered, |w.sent|)
  {
    assert w.delivered == Line(w)[..|w.delivered|];
  }

  /** Every letter sent is lost, delivered, or still on its way; so if none was lost the line
      is the whole of what was sent. */
  lemma NoneLost(run: seq<World>, steps: seq<Step>, start: World, k: nat, i: nat)
    requires IsRun(run, steps, start) && k < |run| && run[k].lost == 0 && i < |run[k].sent|
    ensures |Line(run[k])| == |run[k].sent| && Line(run[k])[i] == i
  {
    RunKeeps(run, steps, start, k);
    AtLeast(Line(run[k]), |run[k].sent|, i);
    AtMost(Line(run[k]), |run[k].sent|, i);
  }

  lemma {:induction false} AtLeast(s: seq<nat>, bound: nat, i: nat)
    requires Increasing(s, bound) && i < |s|
    ensures s[i] >= i
  {
    if i > 0 { AtLeast(s, bound, i - 1); }
  }

  lemma {:induction false} AtMost(s: seq<nat>, bound: nat, i: nat)
    requires Increasing(s, bound) && i < |s| == bound
    ensures s[i] <= i
    decreases |s| - i
  {
    if i + 1 < |s| { AtMost(s, bound, i + 1); }
  }

  // ---------------------------------------------------------------- mail gets there

  /** The steps of the receiving machine. */
  predicate Receives(s: Step) { s.Poll? || s.TakeToken? || s.Receive? || s.Put? }

  /** How far the letters on their way are from their boxes. */
  function ToGo(w: World): nat {
    4 * |w.wire| + (if w.inLabel.length == 0 then 0 else if w.worker.HasToken? then 2 else 3) + Unit(w.worker.HasPacket?)
  }

  /** While a letter is on its way, the receiving machine has a step that brings one nearer. */
  lemma Proceeds(w: World) returns (s: Step)
    requires Inv(w) && ToGo(w) > 0
    ensures Receives(s) && Enabled(w, s) && ToGo(Next(w, s)) < ToGo(w)
    ensures Next(w, s).sent == w.sent && Next(w, s).lost == w.lost && Line(Next(w, s)) == Line(w)
  {
    hide OnWire, Holds, Over, Sendable, For, Senders, Opened, Origins, LabelAt, Sorted;
    if w.worker.HasPacket? {
      s := Put;
      InHandIsSent(w);
      PutKeeps(w);
    } else if w.worker.HasToken? {
      s := Receive;
      ReceiveKeeps(w);
    } else if w.inLabel.length != 0 {
      s := TakeToken;
      assert Line(Next(w, s)) == Line(w);
    } else {
      s := Poll;
      ArrivesIf(w);
      PollKeeps(w);
    }
  }

  ghost predicate Leads(run: seq<World>, steps: seq<Step>) {
    && |run| == |steps| + 1
    && forall k :: 0 <= k < |steps| ==> Formed(run[k]) && Enabled(run[k], steps[k]) && run[k + 1] == Next(run[k], steps[k])
  }

  /** From any state the receiving machine can, by its own steps, deliver all that is on its way. */
  lemma {:induction false} DeliversAll(w: World) returns (run: seq<World>, steps: seq<Step>)
    requires Inv(w)
    ensures Leads(run, steps) && |run| == |steps| + 1 && run[0] == w && (forall k :: 0 <= k < |steps| ==> Receives(steps[k]))
    ensures var w' := run[|steps|];
            Inv(w') && w'.sent == w.sent && w'.lost == w.lost && w'.delivered == Line(w)
    decreases ToGo(w)
  {
    if ToGo(w) == 0 {
      run, steps := [w], [];
      assert Line(w) == w.delivered;
    } else {
      hide Inv, Next, Line, ToGo, Enabled;
      var s := Proceeds(w);
      StepKeeps(w, s);
      InvFormed(w);
      var run', steps' := DeliversAll(Next(w, s));
      run, steps := [w] + run', [s] + steps';
      forall k | 0 <= k < |steps|
        ensures Formed(run[k]) && Enabled(run[k], steps[k]) && run[k + 1] == Next(run[k], steps[k])
      {
        if k > 0 { assert run[k] == run'[k - 1] && steps[k] == steps'[k - 1] && run[k + 1] == run'[k]; }
      }
    }
  }

  lemma InvFormed(w: World)
    requires Inv(w)
    ensures Formed(w)
  {
  }

  /** How many steps a call of Send has yet to go. */
  function SendToGo(w: World, t: Tid): nat {
    if t !in w.senders then 0
    else match w.senders[t]
      case Outside => 0
      case Locked(_) => 4
      case Waiting => if w.sending then 3 else 2
      case Told => 1
  }

  /** While a thread is in Send, the sending machine has a step, and each one is of that call. */
  lemma SendProceeds(w: World, t: Tid, padding: seq<Byte>)
    requires Inv(w) && t in w.senders && !w.senders[t].Outside? && |padding| == WIRE_SIZE
    ensures exists s :: !Receives(s) && Enabled(w, s)
    ensures forall s :: !Receives(s) && Enabled(w, s) ==> SendToGo(Next(w, s), t) < SendToGo(w, t)
  {
    hide Formed, InLine, Tokens, Intact, Sorted, LabelAt, WireBytes, Over, Opened;
    var s := match w.senders[t] case Locked(_) => Transmit(t, false, padding) case Told => Unlock(t)
                                case _ => if w.sending then SendDone else Step.Told(t);
    assert w.senders[t].Locked? ==> Sendable(w.senders[t].l, w.numBoxes);
    assert !Receives(s) && Enabled(w, s);
  }
}
