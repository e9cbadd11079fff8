/** What every reachable state of the connection satisfies. */
module ProtocolInvariant {
  import opened Common
  import opened Protocol

  // ---- Contents of the queues -----------------------------------------------------------

  /** Concatenation of `f` over a queue. */
  ghost function Collect<A, B>(f: A -> seq<B>, s: seq<A>): seq<B> {
    if s == [] then [] else f(s[0]) + Collect(f, s[1..])
  }

  lemma {:induction false} CollectAppend<A, B>(f: A -> seq<B>, a: seq<A>, b: seq<A>)
    ensures Collect(f, a + b) == Collect(f, a) + Collect(f, b)
  {
    if a == [] {
      assert a + b == b;
    } else {
      assert (a + b)[1..] == a[1..] + b;
      CollectAppend(f, a[1..], b);
    }
  }

  lemma CollectOne<A, B>(f: A -> seq<B>, x: A)
    ensures Collect(f, [x]) == f(x)
  {
    assert Collect(f, [x][1..]) == [];
  }

  lemma CollectSnoc<A, B>(f: A -> seq<B>, s: seq<A>, x: A)
    ensures Collect(f, s + [x]) == Collect(f, s) + f(x)
  {
    CollectAppend(f, s, [x]);
    CollectOne(f, x);
  }

  ghost function OrderedId(c: Command): seq<nat> { if c.Ordered() then [c.id] else [] }
  ghost function ReadId(c: Command): seq<nat> { if c.Read? then [c.id] else [] }
  ghost function CellsOf(c: Command): seq<Cell> { if c.Write? then c.data else [] }
  ghost function DoneId(e: Event): seq<nat> { if e.Done? then [e.id] else [] }
  ghost function ReadEventId(e: Event): seq<nat> { if e.ReadDone? || e.ReadFailed? then [e.id] else [] }
  ghost function ChunksOf(e: Event): seq<Bytes> {
    if e.Data? then Chunks(e.item) else if e.ReadDone? then [e.data] else []
  }

  ghost function OrderedIds(cs: seq<Command>): seq<nat> { Collect(OrderedId, cs) }
  ghost function ReadCommandIds(cs: seq<Command>): seq<nat> { Collect(ReadId, cs) }
  ghost function Cells(cs: seq<Command>): seq<Cell> { Collect(CellsOf, cs) }
  ghost function DoneIds(es: seq<Event>): seq<nat> { Collect(DoneId, es) }
  ghost function ReadEventIds(es: seq<Event>): seq<nat> { Collect(ReadEventId, es) }
  ghost function EventChunks(es: seq<Event>): seq<Bytes> { Collect(ChunksOf, es) }
  ghost function FifoChunks(items: seq<Item>): seq<Bytes> { Collect(Chunks, items) }

  ghost function CreditBytes(cs: seq<Command>): int {
    if cs == [] then 0 else (if cs[0].Credit? then cs[0].bytes else 0) + CreditBytes(cs[1..])
  }

  ghost function CreditSlots(cs: seq<Command>): int {
    if cs == [] then 0 else (if cs[0].Credit? then cs[0].slots else 0) + CreditSlots(cs[1..])
  }

  lemma {:induction false} CreditSnoc(cs: seq<Command>, c: Command)
    ensures CreditBytes(cs + [c]) == CreditBytes(cs) + (if c.Credit? then c.bytes else 0)
    ensures CreditSlots(cs + [c]) == CreditSlots(cs) + (if c.Credit? then c.slots else 0)
  {
    if cs == [] {
      assert cs + [c] == [c];
      assert [c][1..] == [];
    } else {
      assert (cs + [c])[1..] == cs[1..] + [c];
      CreditSnoc(cs[1..], c);
    }
  }

  // ---- Where things are -----------------------------------------------------------------

  /** Ordered requests that JavaScript has queued and not settled, oldest first: completions in
    the callback queue, the completion about to be sent, the reactor's backlog, the channel. */
  ghost function Outstanding(s: State): seq<nat> {
    DoneIds(s.callbacks) + CompletedIds(s.rx.phase) + OrderedIds(s.rx.commands) + OrderedIds(s.channel)
  }

  ghost function CompletedIds(phase: Phase): seq<nat> {
    if phase.Completed? then DoneId(phase.event) else []
  }

  /** The explicit read request, wherever it is. */
  ghost function ReadIds(s: State): seq<nat> {
    ReadEventIds(s.callbacks) + (if s.rx.read.Some? then [s.rx.read.value.0] else []) + ReadCommandIds(s.channel)
  }

  ghost function Collected(phase: Phase): seq<Bytes> {
    if phase.Bursting? || phase.Publishing? then phase.batch else []
  }

  ghost function Undelivered(d: Delivery): seq<Bytes> {
    if d.Listening? && d.index <= |d.events| then d.events[d.index..] else []
  }

  /** Chunks the reactor side holds: in callbacks or in an unpublished burst. */
  ghost function Upstream(s: State): seq<Bytes> {
    EventChunks(s.callbacks) + Collected(s.rx.phase)
  }

  /** Chunks read from the device and not yet handed to JavaScript code, in device order. */
  ghost function InFlight(s: State): seq<Bytes> {
    Undelivered(s.delivery) + FifoChunks(Fifo(s.js)) + Upstream(s)
  }

  /** Payload cells the reactor still has to write. */
  ghost function Backlog(commands: seq<Command>, written: nat): seq<Cell> {
    var all := Cells(commands);
    if written <= |all| then all[written..] else []
  }

  ghost function CallCells(call: Call): seq<Cell> {
    match call
    case NoCall => []
    case Checking(_, data, _) => data
    case Trying(_, data) => data
    case Enqueuing(c) => CellsOf(c)
    case Sending(c) => CellsOf(c)
  }

  /** Cells on their way to the device, in order. */
  ghost function Pipeline(s: State): seq<Cell> {
    Backlog(s.rx.commands, s.rx.written) + Cells(s.channel) + CallCells(s.call)
  }

  ghost predicate OrderedCall(call: Call) {
    call.Checking? || call.Trying? || ((call.Enqueuing? || call.Sending?) && call.command.Ordered())
  }

  ghost predicate ReadCall(call: Call) {
    (call.Enqueuing? || call.Sending?) && call.command.Read?
  }

  ghost predicate CreditCall(call: Call) {
    (call.Enqueuing? || call.Sending?) && call.command.Credit?
  }

  /** The id of a request being submitted. */
  ghost function CallId(call: Call): Option<nat> {
    match call
    case NoCall => None
    case Checking(id, _, _) => Some(id)
    case Trying(id, _) => Some(id)
    case Enqueuing(c) => if c.Credit? then None else Some(c.id)
    case Sending(c) => if c.Credit? then None else Some(c.id)
  }

  ghost function Keys(pending: map<nat, bool>, ordered: bool): set<nat> {
    set id | id in pending && pending[id] == ordered
  }

  // ---- The invariants -------------------------------------------------------------------

  datatype Stage = Starting | Running | Leaving | Stopped | Over

  ghost function StageOf(phase: Phase): Stage {
    match phase
    case Opening => Starting
    case Exited => Leaving
    case Released => Stopped
    case Gone => Over
    case _ => Running
  }

  /** The reactor's backlog holds ordered commands only and `written` belongs to its front. */
  ghost predicate Reactive(commands: seq<Command>, written: nat) {
    && (forall c :: c in commands ==> c.Ordered())
    && (written > 0 ==> commands != [] && commands[0].Write? && written <= |commands[0].data|)
  }

  /** "open" is the first callback, "close" is the last one and comes after stop. */
  ghost predicate Life(isOpen: bool, closing: bool, finished: bool, stop: bool, stage: Stage,
                       callbacks: seq<Event>) {
    && (stage.Stopped? || stage.Over? ==> stop)
    && (stop && (stage.Starting? || stage.Running?) ==> closing)
    && (finished ==> stage.Over? && callbacks == [])
    && (stage.Over? && !finished ==> callbacks != [] && callbacks[|callbacks| - 1].Closed?)
    && (forall i :: 0 <= i < |callbacks| - 1 ==> !callbacks[i].Closed?)
    && (!stage.Over? ==> forall e :: e in callbacks ==> !e.Closed?)
    && (stage.Starting? ==> callbacks == [])
    && (forall i :: 0 < i < |callbacks| ==> !callbacks[i].Opened?)
    && (isOpen ==> !stage.Starting? && forall e :: e in callbacks ==> !e.Opened?)
  }

  ghost predicate InvLife(s: State) {
    && Life(s.js.isOpen, s.js.closing, s.js.finished, s.stop, StageOf(s.rx.phase), s.callbacks)
    && (s.call != NoCall ==> s.js.isOpen && !s.js.closing)
    && (s.js.streaming && !s.js.closing ==> s.js.isOpen)
  }

  ghost predicate InvReactive(s: State) {
    && Reactive(s.rx.commands, s.rx.written)
    && (s.rx.phase.Completed? ==> s.rx.phase.event.Done?)
    && |Collected(s.rx.phase)| < READ_BURST_LIMIT
  }

  /** Explicit reads and streaming exclude each other on both sides. */
  ghost predicate InvExclusive(s: State) {
    && s.rx.bytes >= 0 && s.rx.slots >= 0
    && (s.rx.read.Some? ==> !s.rx.streaming)
    && (!s.rx.streaming ==> s.rx.bytes == 0 && s.rx.slots == 0)
    && (s.rx.streaming ==> s.js.streaming)
    && !(s.js.reading && s.js.streaming)
    && (ReadCall(s.call) ==> s.js.reading)
    && (!s.js.finished ==>
          |ReadIds(s)| + (if ReadCall(s.call) then 1 else 0) <= (if s.js.reading then 1 else 0))
  }

  ghost predicate NoCredits(channel: seq<Command>) { forall c :: c in channel ==> !c.Credit? }

  ghost predicate NoData(callbacks: seq<Event>) { forall e :: e in callbacks ==> !e.Data? }

  /** Before the first `startReading` nothing of the streaming machinery is in use. */
  ghost predicate InvQuiet(s: State) {
    !s.js.streaming ==>
      && s.js.readBytes == 0 && s.js.readSlots == 0
      && !CreditCall(s.call) && NoCredits(s.channel) && NoData(s.callbacks)
      && s.js.pendingRead.None? && s.delivery == Idle && Collected(s.rx.phase) == []
      && !s.rx.phase.FirstSent?
  }

  /** Every pending request is in exactly one place, and ordered ones settle in order. */
  ghost predicate Requests(finished: bool, pending: map<nat, bool>, ordered: int, orderedCall: bool,
                           outstanding: seq<nat>, readIds: seq<nat>, settled: seq<nat>, queued: seq<nat>) {
    && (!finished ==>
          && multiset(outstanding) == multiset(Keys(pending, true))
          && multiset(readIds) == multiset(Keys(pending, false))
          && ordered == |outstanding| + (if orderedCall then 1 else 0)
          && settled + outstanding == queued)
    && |pending| <= MAX_PENDING_OPS
  }

  ghost predicate InvRequests(s: State) {
    && Requests(s.js.finished, s.js.pending, s.js.ordered, OrderedCall(s.call), Outstanding(s), ReadIds(s),
                s.log.settled, s.log.queued)
    && (CallId(s.call).Some? ==>
          CallId(s.call).value !in s.js.pending && |s.js.pending| < MAX_PENDING_OPS)
    && (s.call.Trying? || (s.call.Checking? && s.call.allowInline) ==> s.js.ordered == 1)
  }

  /** `pending_ops` counts the ordered commands the reactor has not popped. */
  ghost predicate InvReservations(s: State) {
    && s.pendingOps == |OrderedIds(s.rx.commands)| + |OrderedIds(s.channel)|
                       + (if s.call.Sending? && s.call.command.Ordered() then 1 else 0)
    && (s.call.Trying? ==> s.pendingOps == 0)
  }

  /** The device has taken a prefix of what was promised; the rest is on its way in order. */
  ghost predicate Writes(attempted: Bytes, promised: seq<Cell>, gap: Option<nat>, accepted: seq<Cell>,
                         pipeline: seq<Cell>, inCall: seq<Cell>) {
    && accepted + pipeline == promised
    && Faithful(promised, attempted)
    && |inCall| <= |attempted|
    && (forall i :: 0 <= i < |inCall| ==> inCall[i].at == |attempted| - |inCall| + i)
    && (gap.None? ==> promised == Tag(attempted, 0))
    && (gap.Some? ==> gap.value < |attempted| && Gapped(promised, gap.value))
  }

  /** The first `gap` cells are the first bytes submitted; every later cell has a skipped byte before it. */
  ghost predicate Gapped(promised: seq<Cell>, gap: nat) {
    && gap <= |promised|
    && (forall i :: 0 <= i < gap ==> promised[i].at == i)
    && (forall i :: gap <= i < |promised| ==> promised[i].at > i)
  }

  /** `cells` is a subsequence of the submitted stream: right values, increasing positions. */
  ghost predicate Faithful(cells: seq<Cell>, stream: Bytes) {
    && (forall i :: 0 <= i < |cells| ==> cells[i].at < |stream| && cells[i].value == stream[cells[i].at])
    && (forall i, j :: 0 <= i < j < |cells| ==> cells[i].at < cells[j].at)
  }

  ghost predicate InvWrites(s: State) {
    && Writes(s.log.attempted, s.log.promised, s.log.gap, s.log.accepted, Pipeline(s), CallCells(s.call))
    && (s.log.gap.Some? ==> !ReceiverOpen(s.rx.phase))
  }

  /** Everything read reaches JavaScript once and in order. */
  ghost predicate Reads(lossless: bool, received: seq<Bytes>, inFlight: seq<Bytes>, produced: seq<Bytes>) {
    && (lossless ==> received + inFlight == produced)
    && received <= produced
  }

  ghost predicate InvReads(s: State) {
    Reads(s.js.isOpen || !s.js.streaming, s.log.received, InFlight(s), s.log.produced)
  }

  ghost predicate NoEmptyItem(callbacks: seq<Event>) {
    forall e :: e in callbacks && e.Data? ==> Chunks(e.item) != []
  }

  /** Every FIFO item has its microtask. */
  ghost predicate InvQueued(s: State) {
    && s.js.microtasks == |Fifo(s.js)|
    && (s.js.pendingRead.None? ==> s.js.queuedReads == [])
    && (s.delivery.Listening? ==> s.delivery.index <= |s.delivery.events|)
    && NoEmptyItem(s.callbacks)
  }

  ghost predicate PositiveCredits(channel: seq<Command>) {
    forall c :: c in channel && c.Credit? ==> c.bytes >= 1 && c.slots >= 1
  }

  /** Credits are conserved: while open, what JavaScript has granted and not got back is in the
    channel, in the window or attached to a chunk in flight. */
  ghost predicate InvCredits(s: State) {
    && (s.js.isOpen && s.js.streaming && ReceiverOpen(s.rx.phase) ==>
          && s.js.readBytes == s.rx.bytes + CreditBytes(s.channel) + |Flat(InFlight(s))|
          && s.js.readSlots == s.rx.slots + CreditSlots(s.channel) + |InFlight(s)|)
    && (s.js.streaming ==>
          && s.rx.bytes + CreditBytes(s.channel) + |Flat(Upstream(s))| <= CHUNK_SIZE
          && s.rx.slots + CreditSlots(s.channel) + |Upstream(s)| <= READ_SLOTS)
    && s.js.readBytes <= CHUNK_SIZE && s.js.readSlots <= READ_SLOTS
    && (CreditCall(s.call) ==>
          && s.js.streaming
          && 1 <= s.call.command.bytes <= CHUNK_SIZE - s.js.readBytes
          && 1 <= s.call.command.slots <= READ_SLOTS - s.js.readSlots)
    && PositiveCredits(s.channel)
  }

  ghost predicate Inv(s: State) {
    && InvLife(s) && InvReactive(s) && InvExclusive(s) && InvQuiet(s) && InvRequests(s)
    && InvReservations(s) && InvWrites(s) && InvReads(s) && InvQueued(s) && InvCredits(s)
  }

  // ---- Queue bounds -----------------------------------------------------------------------

  /** Every callback is an ordered completion, a read completion, a data item, or one of the
    two life-cycle events. */
  lemma {:induction false} CountCallbacks(es: seq<Event>)
    requires forall e :: e in es && e.Data? ==> Chunks(e.item) != []
    ensures |es| <= |DoneIds(es)| + |ReadEventIds(es)| + |EventChunks(es)| + LifeCycle(es)
    ensures (forall e :: e in es ==> !e.Data?) ==>
              |es| <= |DoneIds(es)| + |ReadEventIds(es)| + LifeCycle(es)
  {
    if es != [] {
      assert forall e :: e in es[1..] ==> e in es;
      assert es[0] in es;
      CountCallbacks(es[1..]);
    }
  }

  ghost function LifeCycle(es: seq<Event>): nat {
    if es == [] then 0 else (if es[0].Opened? || es[0].Closed? then 1 else 0) + LifeCycle(es[1..])
  }

  /** "open" can only be first and "close" only last. */
  lemma {:induction false} CountLifeCycle(es: seq<Event>)
    requires forall i :: 0 <= i < |es| - 1 ==> !es[i].Closed?
    requires forall i :: 0 < i < |es| ==> !es[i].Opened?
    ensures LifeCycle(es) <= 2
    ensures es != [] && !es[0].Opened? ==> LifeCycle(es) <= 1
    ensures (forall e :: e in es ==> !e.Opened? && !e.Closed?) ==> LifeCycle(es) == 0
  {
    if |es| > 1 {
      assert forall i :: 0 <= i < |es[1..]| ==> es[1..][i] == es[i + 1];
      assert forall e :: e in es[1..] ==> e in es;
      assert es[0] in es;
      CountLifeCycle(es[1..]);
    } else if |es| == 1 {
      assert es[0] in es;
      assert LifeCycle(es[1..]) == 0;
    }
  }

  lemma {:induction false} CountChannel(cs: seq<Command>)
    requires forall c :: c in cs && c.Credit? ==> c.bytes >= 1 && c.slots >= 1
    ensures CreditSlots(cs) >= 0 && CreditBytes(cs) >= 0
    ensures |cs| <= |OrderedIds(cs)| + |ReadCommandIds(cs)| + CreditSlots(cs)
  {
    if cs != [] {
      assert forall c :: c in cs[1..] ==> c in cs;
      assert cs[0] in cs;
      CountChannel(cs[1..]);
    }
  }

  lemma PendingSplit(pending: map<nat, bool>)
    ensures |Keys(pending, true)| + |Keys(pending, false)| == |pending|
  {
    assert Keys(pending, true) + Keys(pending, false) == pending.Keys;
    assert Keys(pending, true) !! Keys(pending, false);
  }

  lemma RequestBound(s: State)
    requires InvRequests(s) && !s.js.finished
    ensures |Outstanding(s)| + |ReadIds(s)| == |s.js.pending|
  {
    PendingSplit(s.js.pending);
    assert |multiset(Outstanding(s))| == |multiset(Keys(s.js.pending, true))|;
    assert |multiset(ReadIds(s))| == |multiset(Keys(s.js.pending, false))|;
  }

  /** The callback queue holds at most 64 completions, 32 reads and the two life-cycle events. */
  lemma CallbackBound(s: State)
    requires InvLife(s) && InvExclusive(s) && InvQuiet(s) && InvRequests(s) && InvQueued(s) && InvCredits(s)
    ensures |s.callbacks| <= MAX_PENDING_OPS + READ_SLOTS + 2
  {
    if !s.js.finished {
      CountCallbacks(s.callbacks);
      CountLifeCycle(s.callbacks);
      CountChannel(s.channel);
      RequestBound(s);
      assert |DoneIds(s.callbacks)| <= |Outstanding(s)|;
      assert |ReadEventIds(s.callbacks)| <= |ReadIds(s)|;
    }
  }
}
