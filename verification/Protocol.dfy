/** The flow-control protocol between the JavaScript binding and the Rust reactor.

  One connection is a transition system.  The JavaScript thread owns `js`, `delivery` and
  `call`; the reactor thread owns `rx`; `stop`, `pendingOps`, `channel` and `callbacks` are
  shared.  Every action is one step that the other thread can observe as atomic.  The device
  is nondeterministic: its answers are parameters of the actions.  `log` records what left
  or entered the system and is never read by a step. */
module Protocol {
  import opened Common

  const CHUNK_SIZE: nat := 65536
  const READ_SLOTS: nat := 32
  const MAX_PENDING_OPS: nat := 64
  const CHANNEL_CAPACITY: nat := MAX_PENDING_OPS + READ_SLOTS
  const CALLBACK_CAPACITY: nat := 128
  const READ_BURST_LIMIT: nat := 16

  // ---- Messages ----------------------------------------------------------------------

  /** A payload byte together with its position in the stream of all submitted payloads. */
  datatype Cell = Cell(value: byte, at: nat)

  datatype Command =
    | Write(id: nat, data: seq<Cell>)
    | Control(id: nat)
    | Read(id: nat, length: nat)
    | Credit(bytes: nat, slots: nat)
  {
    predicate Ordered() { Write? || Control? }
  }

  /** One native read callback: a single buffer or a batch of at least two. */
  datatype Item = Single(data: Bytes) | Batch(events: seq<Bytes>)

  datatype Event =
    | Opened
    | Closed
    | Done(id: nat)                     // "ok" or "error" for an ordered command
    | ReadDone(id: nat, data: Bytes)    // "read" for an explicit read
    | ReadFailed(id: nat)               // "Read already pending"
    | Data(item: Item)                  // streaming data

  function Chunks(item: Item): seq<Bytes> {
    match item
    case Single(data) => [data]
    case Batch(events) => events
  }

  // ---- The JavaScript side ------------------------------------------------------------

  /** Fields of BindingPort.  `pending` maps a request id to its `ordered` flag. */
  datatype Binding = Binding(
    isOpen: bool, closing: bool, finished: bool,
    pending: map<nat, bool>, ordered: int,
    reading: bool, streaming: bool,
    readBytes: int, readSlots: int,
    pendingRead: Option<Item>, queuedReads: seq<Item>, microtasks: nat)

  /** The read FIFO: the head item followed by the queued ones. */
  function Fifo(js: Binding): seq<Item> {
    (if js.pendingRead.Some? then [js.pendingRead.value] else []) + js.queuedReads
  }

  /** The native callback stores a read and schedules one microtask. */
  function OnRead(js: Binding, item: Item): Binding {
    if js.pendingRead.None? then js.(pendingRead := Some(item), microtasks := js.microtasks + 1)
    else js.(queuedReads := js.queuedReads + [item], microtasks := js.microtasks + 1)
  }

  /** `deliverRead` removes the head of the FIFO. */
  function TakeRead(js: Binding): Binding
    requires js.microtasks > 0
  {
    js.(pendingRead := if js.queuedReads == [] then None else Some(js.queuedReads[0]),
        queuedReads := if js.queuedReads == [] then [] else js.queuedReads[1..],
        microtasks := js.microtasks - 1)
  }

  /** `retainRead` puts the undelivered rest of a batch back at the head. */
  function Retain(js: Binding, rest: seq<Bytes>): Binding {
    js.(pendingRead := Some(Batch(rest)),
        queuedReads := (if js.pendingRead.Some? then [js.pendingRead.value] else []) + js.queuedReads,
        microtasks := js.microtasks + 1)
  }

  /** Accounting for one chunk handed to `onData`. */
  function Charge(js: Binding, data: Bytes): Binding {
    js.(readBytes := js.readBytes - |data|, readSlots := js.readSlots - 1)
  }

  /** The credit `startReading(length)` requests, if any. */
  function Wanted(js: Binding, length: int): Option<Command> {
    var window := Max(1, Min(length, CHUNK_SIZE));
    if 2 * js.readBytes <= window || 2 * js.readSlots <= READ_SLOTS then
      var bytes := window - js.readBytes;
      var slots := READ_SLOTS - js.readSlots;
      if bytes > 0 && slots > 0 then Some(Credit(bytes, slots)) else None
    else None
  }

  /** `_settle`: an unknown id is ignored. */
  function Settle(js: Binding, id: nat): Binding {
    if id !in js.pending then js
    else js.(pending := js.pending - {id},
             ordered := if js.pending[id] then js.ordered - 1 else js.ordered)
  }

  /** `_finishClose`: the first call rejects every pending request. */
  function Finish(js: Binding): Binding {
    if js.finished then js else js.(finished := true, pending := map[], ordered := 0)
  }

  predicate CanSubmit(js: Binding) {
    js.isOpen && !js.closing && |js.pending| < MAX_PENDING_OPS
  }

  /** Between two native callbacks or microtasks the JavaScript stack is either empty or inside
    the `onData` listener for `events[index - 1]`. */
  datatype Delivery = Idle | Listening(events: seq<Bytes>, index: nat)

  /** A native call in progress on the JavaScript thread. */
  datatype Call =
    | NoCall
    | Checking(id: nat, data: seq<Cell>, allowInline: bool)  // before loading pending_ops
    | Trying(id: nat, data: seq<Cell>)                       // pending_ops was zero
    | Enqueuing(command: Command)                            // before the admission check
    | Sending(command: Command)                              // admitted, before try_send

  // ---- The reactor --------------------------------------------------------------------

  datatype Phase =
    | Opening
    | Ready
    | Completed(event: Event)                       // front popped, completion not yet sent
    | FirstSent                                     // burst: first chunk sent, lock not yet taken
    | Bursting(batch: seq<Bytes>)                   // burst: holding the port lock
    | Publishing(batch: seq<Bytes>, failed: bool)   // burst: lock released, followers unsent
    | Exited                                        // run_open returned: the receiver is gone
    | Released                                      // stop is set and the port is taken
    | Gone                                          // "close" has been sent

  datatype Reactor = Reactor(
    phase: Phase,
    commands: seq<Command>,
    read: Option<(nat, nat)>,
    streaming: bool,
    bytes: int, slots: int, size: nat,
    written: nat)

  predicate ReceiverOpen(phase: Phase) { !phase.Exited? && !phase.Released? && !phase.Gone? }

  /** How much the next device read may return. */
  function ReadLength(rx: Reactor): Option<nat> {
    if rx.read.Some? then Some(rx.read.value.1)
    else if rx.bytes > 0 && rx.slots > 0 then Some(rx.bytes)
    else None
  }

  function NextPowerOfTwo(n: nat): (p: nat)
    ensures n <= p && IsPowerOfTwo(p)
    ensures forall q: nat :: IsPowerOfTwo(q) && n <= q ==> p <= q
  {
    PowerOfTwoFrom(1, n)
  }

  function PowerOfTwoFrom(p: nat, n: nat): (r: nat)
    requires IsPowerOfTwo(p)
    requires forall q: nat :: IsPowerOfTwo(q) && n <= q ==> p <= q
    ensures n <= r && IsPowerOfTwo(r)
    ensures forall q: nat :: IsPowerOfTwo(q) && n <= q ==> r <= q
    decreases n - p
  {
    if n <= p then p
    else
      assert forall q: nat :: IsPowerOfTwo(q) && n <= q ==> 2 * p <= q by {
        forall q: nat | IsPowerOfTwo(q) && n <= q ensures 2 * p <= q { PowersAreSparse(p, q); }
      }
      PowerOfTwoFrom(2 * p, n)
  }

  predicate IsPowerOfTwo(p: nat) {
    if p <= 1 then p == 1 else p % 2 == 0 && IsPowerOfTwo(p / 2)
  }

  lemma {:induction false} PowersAreSparse(p: nat, q: nat)
    requires IsPowerOfTwo(p) && IsPowerOfTwo(q) && p < q
    ensures 2 * p <= q
  {
    if p > 1 { PowersAreSparse(p / 2, q / 2); }
  }

  /** The adaptive read size after a read of `length` bytes into `capacity`. */
  function NextSize(size: nat, length: nat, capacity: nat): nat {
    if length == capacity then Min(size * 2, CHUNK_SIZE)
    else Max(64, Min(NextPowerOfTwo(length), CHUNK_SIZE))
  }

  /** One streaming read: the window is charged and resized. */
  function ChargeWindow(rx: Reactor, length: nat, capacity: nat): Reactor {
    rx.(bytes := rx.bytes - length, slots := rx.slots - 1,
        size := NextSize(rx.size, length, capacity))
  }

  // ---- The whole connection -----------------------------------------------------------

  /** History.  `attempted` is every payload byte given to native write/writev; `promised` is the
    same without the bytes whose submission was rejected; `gap` is the length of `promised` at
    the first such rejection.  `queued` and `settled` list ordered request ids; `unsettled` holds
    those of the writes that have been queued and not settled.  `window` is the account after the last
    credit. */
  datatype Log = Log(
    attempted: Bytes, promised: seq<Cell>, gap: Option<nat>, accepted: seq<Cell>,
    queued: seq<nat>, settled: seq<nat>, unsettled: set<nat>,
    produced: seq<Bytes>, received: seq<Bytes>, window: int)

  datatype State = State(
    js: Binding, delivery: Delivery, call: Call, rx: Reactor,
    stop: bool, pendingOps: int, channel: seq<Command>, callbacks: seq<Event>,
    log: Log)

  function Init(): State {
    State(
      Binding(false, false, false, map[], 0, false, false, 0, 0, None, [], 0),
      Idle, NoCall,
      Reactor(Opening, [], None, false, 0, 0, 1024, 0),
      false, 0, [], [],
      Log([], [], None, [], [], [], {}, [], [], 0))
  }

  function Tag(data: Bytes, from: nat): (cells: seq<Cell>)
    ensures |cells| == |data|
    ensures forall i :: 0 <= i < |data| ==> cells[i] == Cell(data[i], from + i)
  {
    seq(|data|, i requires 0 <= i < |data| => Cell(data[i], from + i))
  }

  // ---- JavaScript actions ---------------------------------------------------------------

  /** `write`/`writev` up to the stop check of the native call. */
  function JsWrite(s: State, id: nat, payload: Bytes): State {
    if s.call != NoCall || !CanSubmit(s.js) || id in s.js.pending || |payload| > CHUNK_SIZE then s
    else if s.stop then s    // "Port is closed": the reservation is undone
    else
      var cells := Tag(payload, |s.log.attempted|);
      s.(js := s.js.(ordered := s.js.ordered + 1),
         call := Checking(id, cells, s.js.ordered + 1 == 1),
         log := s.log.(attempted := s.log.attempted + payload, promised := s.log.promised + cells))
  }

  /** `_request` for update, set, get, getBaudRate, flush and drain. */
  function JsControl(s: State, id: nat): State {
    if s.call != NoCall || !CanSubmit(s.js) || id in s.js.pending then s
    else s.(js := s.js.(ordered := s.js.ordered + 1), call := Enqueuing(Control(id)))
  }

  /** `readChunk`. */
  function JsRead(s: State, id: nat, length: nat): State {
    if s.call != NoCall || length < 1 || s.js.reading || s.js.streaming
       || !CanSubmit(s.js) || id in s.js.pending then s
    else s.(js := s.js.(reading := true), call := Enqueuing(Read(id, Min(length, CHUNK_SIZE))))
  }

  /** `startReading`. */
  function JsStartReading(s: State, length: int): State {
    if s.call != NoCall || !s.js.isOpen || s.js.closing || s.js.reading then s
    else
      var wanted := Wanted(s.js, length);
      s.(js := s.js.(streaming := true),
         call := if wanted.Some? then Enqueuing(wanted.value) else NoCall)
  }

  /** The load of pending_ops that guards an inline write. */
  function JsLoad(s: State): State {
    if !s.call.Checking? then s
    else if s.call.allowInline && s.pendingOps == 0 then s.(call := Trying(s.call.id, s.call.data))
    else s.(call := Enqueuing(Write(s.call.id, s.call.data)))
  }

  /** `try_lock` and `try_write`: `count` is None when the lock is contended, the port is absent
    or the device refuses. */
  function JsTryWrite(s: State, count: Option<nat>): State {
    if !s.call.Trying? then s
    else if count.Some? && count.value <= |s.call.data|
            && !s.rx.phase.Bursting? && !s.rx.phase.Released? && !s.rx.phase.Gone? then
      var taken := s.call.data[..count.value];
      var log := s.log.(accepted := s.log.accepted + taken);
      if count.value == |s.call.data| then
        s.(js := s.js.(ordered := s.js.ordered - 1), call := NoCall,
           log := log.(queued := log.queued + [s.call.id], settled := log.settled + [s.call.id]))
      else s.(call := Enqueuing(Write(s.call.id, s.call.data[count.value..])), log := log)
    else s.(call := Enqueuing(Write(s.call.id, s.call.data)))
  }

  /** The native call failed: JavaScript undoes its reservation and reports the error. */
  function Reject(s: State, command: Command): State {
    var js := if command.Ordered() then s.js.(ordered := s.js.ordered - 1)
              else if command.Read? then s.js.(reading := false) else s.js;
    var log :=
      if command.Write? && command.data != [] then
        var kept := |s.log.promised| - |command.data|;
        s.log.(promised := if 0 <= kept then s.log.promised[..kept] else s.log.promised,
               gap := if s.log.gap.Some? then s.log.gap else Some(Max(0, kept)))
      else s.log;
    s.(js := js, call := NoCall, log := log)
  }

  /** `enqueue` up to its reservation in pending_ops. */
  function JsEnqueue(s: State): State {
    if !s.call.Enqueuing? then s
    else if s.stop then Reject(s, s.call.command)
    else if !s.call.command.Ordered() then s.(call := Sending(s.call.command))
    else if s.pendingOps >= MAX_PENDING_OPS then Reject(s, s.call.command)
    else s.(pendingOps := s.pendingOps + 1, call := Sending(s.call.command))
  }

  /** `try_send`, then the JavaScript epilogue of the call. */
  function JsSend(s: State): State {
    if !s.call.Sending? then s
    else
      var c := s.call.command;
      if !ReceiverOpen(s.rx.phase) || |s.channel| >= CHANNEL_CAPACITY then
        Reject(if c.Ordered() then s.(pendingOps := s.pendingOps - 1) else s, c)
      else
        var sent := s.(channel := s.channel + [c], call := NoCall);
        if c.Credit? then
          sent.(js := s.js.(readBytes := s.js.readBytes + c.bytes, readSlots := s.js.readSlots + c.slots),
                log := s.log.(window := s.js.readBytes + c.bytes))
        else
          sent.(js := s.js.(pending := s.js.pending[c.id := c.Ordered()]),
                log := if c.Ordered() then
                         s.log.(queued := s.log.queued + [c.id],
                                unsettled := if c.Write? then s.log.unsettled + {c.id} else s.log.unsettled)
                       else s.log)
  }

  /** Hand over `events[index]`, or leave the delivery loop. */
  function Deliver(s: State, events: seq<Bytes>, index: nat): State {
    if index < |events| && s.js.isOpen then
      s.(js := Charge(s.js, events[index]),
         delivery := Listening(events, index + 1),
         log := s.log.(received := s.log.received + [events[index]]))
    else s.(delivery := Idle)
  }

  predicate EventLoop(s: State) { s.call == NoCall && s.delivery == Idle }

  function JsMicrotask(s: State): State {
    if !EventLoop(s) || s.js.microtasks == 0 then s
    else
      var item := s.js.pendingRead;
      var next := s.(js := TakeRead(s.js));
      if item.None? then next else Deliver(next, Chunks(item.value), 0)
  }

  function JsListenerReturns(s: State): State {
    if s.call != NoCall || s.delivery.Idle? then s
    else Deliver(s, s.delivery.events, s.delivery.index)
  }

  function JsListenerThrows(s: State): State {
    if s.call != NoCall || s.delivery.Idle? then s
    else
      var rest := s.delivery.events[Min(s.delivery.index, |s.delivery.events|)..];
      s.(js := if rest != [] && s.js.isOpen then Retain(s.js, rest) else s.js, delivery := Idle)
  }

  /** Node runs the native callback for the oldest queued event. */
  function JsCallback(s: State): State {
    if !EventLoop(s) || s.callbacks == [] then s
    else
      var next := s.(callbacks := s.callbacks[1..]);
      match s.callbacks[0]
      case Opened => if s.js.closing then next else next.(js := s.js.(isOpen := true))
      case Closed => next.(js := Finish(s.js))
      case Done(id) =>
        next.(js := Settle(s.js, id),
              log := s.log.(settled := s.log.settled + [id], unsettled := s.log.unsettled - {id}))
      case ReadDone(id, data) =>
        next.(js := Settle(s.js, id), log := s.log.(received := s.log.received + [data]))
      case ReadFailed(id) => next.(js := Settle(s.js, id))
      case Data(item) => next.(js := OnRead(s.js, item))
  }

  /** The `finally` of `readChunk` runs once its request is no longer pending. */
  function JsReadSettled(s: State): State {
    if s.call == NoCall && s.js.reading && (forall id :: id in s.js.pending ==> s.js.pending[id])
    then s.(js := s.js.(reading := false)) else s
  }

  function JsClose(s: State): State {
    if s.call != NoCall || !s.js.isOpen || s.js.closing then s
    else s.(js := s.js.(closing := true, isOpen := false), stop := true)
  }

  function JsCancelOpen(s: State): State {
    if s.call != NoCall then s else s.(js := s.js.(closing := true), stop := true)
  }

  // ---- Reactor actions ------------------------------------------------------------------

  /** `send`: a full callback queue would lose the event and stop the reactor. */
  function Send(s: State, event: Event, next: Phase): State {
    if |s.callbacks| < CALLBACK_CAPACITY then
      s.(callbacks := s.callbacks + [event], rx := s.rx.(phase := next))
    else s.(rx := s.rx.(phase := Exited))
  }

  function RxOpen(s: State, ok: bool): State {
    if !s.rx.phase.Opening? then s
    else if !ok || s.stop then s.(rx := s.rx.(phase := Exited))
    else Send(s, Opened, Ready)
  }

  function RxReceive(s: State): State {
    if !s.rx.phase.Ready? || s.channel == [] then s
    else
      var next := s.(channel := s.channel[1..]);
      match s.channel[0]
      case Read(id, length) =>
        if s.rx.read.Some? || s.rx.streaming then Send(next, ReadFailed(id), Ready)
        else next.(rx := s.rx.(read := Some((id, length))))
      case Credit(bytes, slots) =>
        var rx := s.rx.(bytes := s.rx.bytes + bytes, slots := s.rx.slots + slots);
        if rx.read.Some? || rx.bytes > CHUNK_SIZE || rx.slots > READ_SLOTS
        then next.(rx := rx.(phase := Exited))       // "Invalid read credit"
        else next.(rx := rx.(streaming := true))
      case _ => next.(rx := s.rx.(commands := s.rx.commands + [s.channel[0]]))
  }

  /** Pop a finished front command and release its reservation. */
  function RxComplete(s: State): State {
    if !s.rx.phase.Ready? || s.rx.commands == []
       || (s.rx.commands[0].Write? && s.rx.written < |s.rx.commands[0].data|)
       || !s.rx.commands[0].Ordered() then s
    else
      var c := s.rx.commands[0];
      s.(rx := s.rx.(commands := s.rx.commands[1..],
                     written := if c.Write? then 0 else s.rx.written,
                     phase := Completed(Done(c.id))),
         pendingOps := s.pendingOps - 1)
  }

  function RxPublishDone(s: State): State {
    if !s.rx.phase.Completed? then s else Send(s, s.rx.phase.event, Ready)
  }

  /** The device takes `count` more bytes of the front write. */
  function RxWrite(s: State, count: nat): State {
    if !s.rx.phase.Ready? || s.rx.commands == [] || !s.rx.commands[0].Write? || count == 0
       || s.rx.written + count > |s.rx.commands[0].data| then s
    else
      var taken := s.rx.commands[0].data[s.rx.written..s.rx.written + count];
      s.(rx := s.rx.(written := s.rx.written + count),
         log := s.log.(accepted := s.log.accepted + taken))
  }

  /** The device returns `data` to the main reader. */
  function RxRead(s: State, data: Bytes): State {
    if !s.rx.phase.Ready? || ReadLength(s.rx).None? then s
    else
      var capacity := Min(ReadLength(s.rx).value, s.rx.size);
      if |data| == 0 || |data| > capacity then s
      else
        var filled := |data| == capacity;
        var logged := s.(log := s.log.(produced := s.log.produced + [data]));
        if s.rx.streaming then
          var rx := ChargeWindow(s.rx, |data|, capacity);
          var next := logged.(rx := rx);
          var writing := s.rx.commands != [] && s.rx.commands[0].Write?;
          if writing || (!filled && |data| < 1024) || s.pendingOps != 0 || rx.bytes == 0 || rx.slots == 0
          then Send(next, Data(Single(data)), Ready)
          else Send(next, Data(Single(data)), FirstSent)
        else if s.rx.read.None? then s.(rx := s.rx.(phase := Exited))   // "Unexpected read completion"
        else
          Send(logged.(rx := s.rx.(read := None, size := NextSize(s.rx.size, |data|, capacity))),
               ReadDone(s.rx.read.value.0, data), Ready)
  }

  function RxBurstLock(s: State): State {
    if !s.rx.phase.FirstSent? then s else s.(rx := s.rx.(phase := Bursting([])))
  }

  /** One follower, collected under the port lock. */
  function RxBurstRead(s: State, data: Bytes): State {
    if !s.rx.phase.Bursting? || |s.rx.phase.batch| + 1 >= READ_BURST_LIMIT
       || s.stop || s.pendingOps != 0 || s.rx.bytes <= 0 || s.rx.slots <= 0 then s
    else
      var capacity := Min(s.rx.bytes, s.rx.size);
      if |data| == 0 || |data| > capacity then s
      else
        s.(rx := ChargeWindow(s.rx, |data|, capacity).(phase := Bursting(s.rx.phase.batch + [data])),
           log := s.log.(produced := s.log.produced + [data]))
  }

  function RxBurstEnd(s: State, failed: bool): State {
    if !s.rx.phase.Bursting? then s
    else s.(rx := s.rx.(phase := Publishing(s.rx.phase.batch, failed)))
  }

  function Followers(batch: seq<Bytes>): Item
    requires batch != []
  {
    if |batch| == 1 then Single(batch[0]) else Batch(batch)
  }

  /** Followers are published before a later read error is reported. */
  function RxPublish(s: State): State {
    if !s.rx.phase.Publishing? then s
    else
      var next := if s.rx.phase.failed then Exited else Ready;
      if s.rx.phase.batch == [] then s.(rx := s.rx.(phase := next))
      else Send(s, Data(Followers(s.rx.phase.batch)), next)
  }

  /** Any I/O error, an empty transfer, or an observed stop. */
  function RxFail(s: State): State {
    if !s.rx.phase.Ready? then s else s.(rx := s.rx.(phase := Exited))
  }

  /** The guard sets stop and takes the port. */
  function RxRelease(s: State): State {
    if !s.rx.phase.Exited? then s else s.(rx := s.rx.(phase := Released), stop := true)
  }

  function RxClose(s: State): State {
    if !s.rx.phase.Released? then s
    else
      s.(rx := s.rx.(phase := Gone),
         callbacks := if |s.callbacks| < CALLBACK_CAPACITY then s.callbacks + [Closed] else s.callbacks)
  }

  // ---- Runs -----------------------------------------------------------------------------

  datatype Action =
    | AWrite(id: nat, payload: Bytes) | AControl(id: nat) | ARead(id: nat, length: nat)
    | AStartReading(limit: int) | ALoad | ATryWrite(count: Option<nat>) | AEnqueue | ASend
    | AMicrotask | AListenerReturns | AListenerThrows | ACallback | AReadSettled
    | AClose | ACancelOpen
    | ROpen(ok: bool) | RReceive | RComplete | RPublishDone | RWrite(taken: nat) | RRead(data: Bytes)
    | RBurstLock | RBurstRead(data: Bytes) | RBurstEnd(failed: bool) | RPublish
    | RFail | RRelease | RClose

  function Step(s: State, a: Action): State {
    match a
    case AWrite(id, payload) => JsWrite(s, id, payload)
    case AControl(id) => JsControl(s, id)
    case ARead(id, length) => JsRead(s, id, length)
    case AStartReading(limit) => JsStartReading(s, limit)
    case ALoad => JsLoad(s)
    case ATryWrite(count) => JsTryWrite(s, count)
    case AEnqueue => JsEnqueue(s)
    case ASend => JsSend(s)
    case AMicrotask => JsMicrotask(s)
    case AListenerReturns => JsListenerReturns(s)
    case AListenerThrows => JsListenerThrows(s)
    case ACallback => JsCallback(s)
    case AReadSettled => JsReadSettled(s)
    case AClose => JsClose(s)
    case ACancelOpen => JsCancelOpen(s)
    case ROpen(ok) => RxOpen(s, ok)
    case RReceive => RxReceive(s)
    case RComplete => RxComplete(s)
    case RPublishDone => RxPublishDone(s)
    case RWrite(taken) => RxWrite(s, taken)
    case RRead(data) => RxRead(s, data)
    case RBurstLock => RxBurstLock(s)
    case RBurstRead(data) => RxBurstRead(s, data)
    case RBurstEnd(failed) => RxBurstEnd(s, failed)
    case RPublish => RxPublish(s)
    case RFail => RxFail(s)
    case RRelease => RxRelease(s)
    case RClose => RxClose(s)
  }

  /** The state after a schedule of both threads.  A disabled action changes nothing. */
  function Run(schedule: seq<Action>): State {
    if schedule == [] then Init()
    else Step(Run(schedule[..|schedule| - 1]), schedule[|schedule| - 1])
  }
}
