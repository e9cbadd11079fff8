/** What holds in every state that any schedule of the two threads can reach. */
module ProtocolTheorems {
  import opened Common
  import opened Protocol
  import opened ProtocolInvariant
  import opened ProtocolSafety

  // ---- Credits --------------------------------------------------------------------------------

  /** Credit conservation: while the port is open and the reactor receives, the bytes and slots
    JavaScript has granted and not got back are in the window, in the channel, or attached to a
    chunk in a burst, in a callback, in the FIFO or in the batch being delivered. */
  lemma {:induction false} CreditsAreConserved(schedule: seq<Action>)
    ensures var s := Run(schedule);
            s.js.isOpen && s.js.streaming && ReceiverOpen(s.rx.phase) ==>
              && s.js.readBytes == s.rx.bytes + CreditBytes(s.channel) + |Flat(InFlight(s))| <= CHUNK_SIZE
              && s.js.readSlots == s.rx.slots + CreditSlots(s.channel) + |InFlight(s)| <= READ_SLOTS
  {
    Safety(schedule);
  }

  /** The explicit read at the head of the channel becomes the reactor's read. */
  ghost predicate Accepts(s: State, c: Command) {
    && s.rx.phase.Ready? && s.channel != [] && c == s.channel[0] && c.Read? && s.rx.read.None?
    && RxReceive(s).rx.read == Some((c.id, c.length)) && RxReceive(s).callbacks == s.callbacks
  }

  /** The reactor never rejects a credit, never refuses a read as busy, and its window never goes
    below zero. */
  lemma {:induction false} CreditsAreValid(schedule: seq<Action>)
    ensures var s := Run(schedule);
            && s.rx.bytes >= 0 && s.rx.slots >= 0
            && (s.rx.phase.Ready? && s.channel != [] ==>
                  RxReceive(s).rx.phase.Ready?
                  && (s.channel[0].Read? ==> Accepts(s, s.channel[0])))
  {
    Safety(schedule);
    ReceiveSucceeds(Run(schedule));
  }

  lemma ReceiveSucceeds(s: State)
    requires Inv(s)
    ensures s.rx.bytes >= 0 && s.rx.slots >= 0
    ensures s.rx.phase.Ready? && s.channel != [] ==>
              RxReceive(s).rx.phase.Ready? && (s.channel[0].Read? ==> Accepts(s, s.channel[0]))
  {
    hide Inv;
    CreditWindow(s);
    if s.rx.phase.Ready? && s.channel != [] {
      if s.channel[0].Credit? { CreditIsValid(s); }
      if s.channel[0].Read? { ReadIsWelcome(s); }
    }
  }

  lemma CreditWindow(s: State)
    requires Inv(s)
    ensures s.rx.bytes >= 0 && s.rx.slots >= 0
  {
  }

  lemma PowersUsed()
    ensures IsPowerOfTwo(64) && IsPowerOfTwo(1024) && IsPowerOfTwo(CHUNK_SIZE)
  {
    assert IsPowerOfTwo(8);
    assert IsPowerOfTwo(64);
    assert IsPowerOfTwo(512) && IsPowerOfTwo(1024);
    assert IsPowerOfTwo(4096);
    assert IsPowerOfTwo(32768);
  }

  /** The adaptive read size is a power of two between 64 bytes and the chunk size. */
  lemma {:induction false} ReadSizeBounds(schedule: seq<Action>)
    ensures var size := Run(schedule).rx.size; IsPowerOfTwo(size) && 64 <= size <= CHUNK_SIZE
  {
    PowersUsed();
    if schedule != [] {
      var s, a := Run(schedule[..|schedule| - 1]), schedule[|schedule| - 1];
      ReadSizeBounds(schedule[..|schedule| - 1]);
      ReadSizeStep(s, a);
    }
  }

  lemma SizeStep(size: nat, length: nat, capacity: nat)
    requires IsPowerOfTwo(size) && 64 <= size <= CHUNK_SIZE
    ensures var next := NextSize(size, length, capacity); IsPowerOfTwo(next) && 64 <= next <= CHUNK_SIZE
  {
    hide IsPowerOfTwo, NextPowerOfTwo;
    PowersUsed();
    Doubled(size);
  }

  lemma Doubled(size: nat)
    requires IsPowerOfTwo(size) && size > 0
    ensures IsPowerOfTwo(size * 2)
  {
  }

  /** A read that fills its buffer doubles the size, up to 64 KiB; any other gives the least power of
    two, between 64 and 64 KiB, that would have held it. */
  lemma SizeFollowsRead(size: nat, length: nat, capacity: nat)
    requires IsPowerOfTwo(size) && 64 <= size <= 65536 && length <= capacity <= 65536
    ensures var next := NextSize(size, length, capacity);
            && (length == capacity ==> next == if size < 65536 then 2 * size else 65536)
            && (length < capacity ==>
                  && IsPowerOfTwo(next) && 64 <= next <= 65536 && length <= next
                  && forall q: nat :: IsPowerOfTwo(q) && 64 <= q && length <= q ==> next <= q)
  {
    hide IsPowerOfTwo;
    PowersUsed();
    if size < 65536 { PowersAreSparse(size, 65536); }
  }

  lemma ReadSizeStep(s: State, a: Action)
    requires IsPowerOfTwo(s.rx.size) && 64 <= s.rx.size <= CHUNK_SIZE
    ensures var size := Step(s, a).rx.size; IsPowerOfTwo(size) && 64 <= size <= CHUNK_SIZE
  {
    hide IsPowerOfTwo, NextSize, RxRead;
    match a
    case RRead(data) => ReadResizes(s, data);
    case RBurstRead(data) =>
      if s.rx.bytes > 0 { SizeStep(s.rx.size, |data|, Min(s.rx.bytes, s.rx.size)); }
    case _ => OtherSizes(s, a);
  }

  lemma ReadResizes(s: State, data: Bytes)
    requires IsPowerOfTwo(s.rx.size) && 64 <= s.rx.size <= CHUNK_SIZE
    ensures var size := RxRead(s, data).rx.size; IsPowerOfTwo(size) && 64 <= size <= CHUNK_SIZE
  {
    hide IsPowerOfTwo, NextSize;
    if ReadLength(s.rx).Some? { SizeStep(s.rx.size, |data|, Min(ReadLength(s.rx).value, s.rx.size)); }
  }

  lemma OtherSizes(s: State, a: Action)
    requires !a.RRead? && !a.RBurstRead?
    ensures Step(s, a).rx.size == s.rx.size
  {
    hide Tag, Wanted;
  }

  /** Every device read is offered at least one byte and at most the remaining credit: all of that, or
    as much as the adaptive size allows.  A stream is read exactly as long as bytes and slots are left. */
  lemma {:induction false} ReadCapacity(schedule: seq<Action>)
    ensures var s := Run(schedule);
            s.rx.streaming ==>
              && (ReadLength(s.rx).Some? <==> s.rx.bytes > 0 && s.rx.slots > 0)
              && (ReadLength(s.rx).Some? ==>
                    var capacity := Min(ReadLength(s.rx).value, s.rx.size);
                    1 <= capacity <= s.rx.bytes && (capacity == s.rx.bytes || capacity == s.rx.size))
  {
    Safety(schedule);
    ReadSizeBounds(schedule);
  }

  /** JavaScript's account covers what is still to be delivered. */
  ghost predicate Covered(s: State) {
    s.js.isOpen && (s.js.streaming || !s.js.reading) ==>
      s.js.readBytes >= |Flat(InFlight(s))| && s.js.readSlots >= |InFlight(s)|
  }

  /** As long as the port is open the account never goes below the chunks in flight, even after the
    reactor has stopped; so `startReading` never asks for more than one window. */
  lemma {:induction false} AccountIsCovered(schedule: seq<Action>)
    ensures Covered(Run(schedule))
    ensures var s := Run(schedule); s.js.isOpen ==> s.js.readBytes >= 0 && s.js.readSlots >= 0
  {
    hide Covered, Step, Inv;
    if schedule == [] {
      InitCovered();
    } else {
      var s, a := Run(schedule[..|schedule| - 1]), schedule[|schedule| - 1];
      AccountIsCovered(schedule[..|schedule| - 1]);
      Safety(schedule[..|schedule| - 1]);
      Safety(schedule);
      CoveredStep(s, a);
    }
    Safety(schedule);
    CoveredIsPositive(Run(schedule));
  }

  lemma CoveredIsPositive(s: State)
    requires Inv(s) && Covered(s)
    ensures s.js.isOpen ==> s.js.readBytes >= 0 && s.js.readSlots >= 0
  {
  }

  lemma InitCovered()
    ensures Covered(Init())
  {
  }

  lemma CoveredStep(s: State, a: Action)
    requires Inv(s) && Covered(s)
    ensures Covered(Step(s, a))
  {
    hide Inv, Covered, Step;
    KeepStep(s, a);
    var t := Step(s, a);
    if t.js.isOpen && t.js.streaming && !ReceiverOpen(t.rx.phase) {
      ChargesOnly(s, a);
      CoveredAfterCharge(s, t);
    } else {
      CoveredWhileOpen(t);
    }
  }

  lemma CoveredWhileOpen(s: State)
    requires Inv(s) && (s.js.isOpen && s.js.streaming ==> ReceiverOpen(s.rx.phase))
    ensures Covered(s)
  {
    hide Reactive, Requests, Writes, Life, CreditBytes, CreditSlots, Collect;
    if s.js.streaming {
      CountChannel(s.channel);
    } else if !s.js.reading {
      QuietChannel(s);
    }
  }

  /** Once the reactor has stopped, a step either hands over one chunk and charges it or changes
    neither the account nor what is in flight. */
  ghost predicate Charged(s: State, t: State) {
    && s.js.isOpen && (s.js.streaming || !s.js.reading) && t.log.produced == s.log.produced
    && ((t.log.received == s.log.received && t.js.readBytes == s.js.readBytes && t.js.readSlots == s.js.readSlots)
        || exists data :: t.log.received == s.log.received + [data]
                          && t.js.readBytes == s.js.readBytes - |data| && t.js.readSlots == s.js.readSlots - 1)
  }

  lemma ChargesOnly(s: State, a: Action)
    requires Inv(s)
    requires var t := Step(s, a); t.js.isOpen && t.js.streaming && !ReceiverOpen(t.rx.phase)
    ensures Charged(s, Step(s, a))
  {
    hide Inv, Charged;
    match a
    case AMicrotask => DeliveryCharges(s, a);
    case AListenerReturns => DeliveryCharges(s, a);
    case AListenerThrows => DeliveryCharges(s, a);
    case ACallback => CallbackCharges(s);
    case AStartReading(_) => CallCharges(s, a);
    case ATryWrite(_) => CallCharges(s, a);
    case AEnqueue => CallCharges(s, a);
    case ASend => CallCharges(s, a);
    case RRead(data) => ReadCharges(s, data);
    case RBurstRead(_) => BurstCharges(s, a);
    case RBurstEnd(_) => BurstCharges(s, a);
    case RPublish => BurstCharges(s, a);
    case RReceive => ReceiveCharges(s);
    case _ => OtherCharges(s, a);
  }

  lemma DeliveryCharges(s: State, a: Action)
    requires a.AMicrotask? || a.AListenerReturns? || a.AListenerThrows?
    requires var t := Step(s, a); t.js.isOpen && t.js.streaming
    ensures Charged(s, Step(s, a))
  {
    if a.AListenerThrows? {
      return;
    }
    hide Deliver, Charged;
    if a.AMicrotask? {
      if EventLoop(s) && s.js.microtasks > 0 && s.js.pendingRead.Some? {
        DeliverCharges(s, s.(js := TakeRead(s.js)), Chunks(s.js.pendingRead.value), 0);
      } else {
        SameCharges(s, JsMicrotask(s));
      }
    } else if s.call == NoCall && s.delivery.Listening? {
      DeliverCharges(s, s, s.delivery.events, s.delivery.index);
    } else {
      SameCharges(s, s);
    }
  }

  lemma DeliverCharges(s: State, next: State, events: seq<Bytes>, index: nat)
    requires next.log == s.log && next.js.readBytes == s.js.readBytes && next.js.readSlots == s.js.readSlots
    requires next.js.isOpen == s.js.isOpen && next.js.streaming == s.js.streaming
    requires var t := Deliver(next, events, index); t.js.isOpen && t.js.streaming
    ensures Charged(s, Deliver(next, events, index))
  {
  }

  lemma SameCharges(s: State, t: State)
    requires t.log.produced == s.log.produced && t.log.received == s.log.received
    requires t.js.readBytes == s.js.readBytes && t.js.readSlots == s.js.readSlots
    requires s.js.isOpen && s.js.streaming
    ensures Charged(s, t)
  {
  }

  lemma CallbackCharges(s: State)
    requires Inv(s)
    requires var t := JsCallback(s); t.js.isOpen && t.js.streaming
    ensures Charged(s, JsCallback(s))
  {
    hide Inv, InvLife, InvExclusive, Charged, JsCallback;
    CallbackAccount(s);
    StreamsAreOpen(s);
    if s.callbacks != [] { NoLateRead(s); }
    SameCharges(s, JsCallback(s));
  }

  ghost predicate SameAccount(js: Binding, next: Binding) {
    && next.readBytes == js.readBytes && next.readSlots == js.readSlots
    && next.isOpen == js.isOpen && next.closing == js.closing && next.streaming == js.streaming
  }

  lemma SettleKeepsAccount(js: Binding, id: nat)
    ensures SameAccount(js, Settle(js, id))
  {
  }

  lemma FinishKeepsAccount(js: Binding)
    ensures SameAccount(js, Finish(js))
  {
  }

  lemma OnReadKeepsAccount(js: Binding, item: Item)
    ensures SameAccount(js, OnRead(js, item))
  {
  }

  lemma CallbackAccount(s: State)
    requires var t := JsCallback(s); t.js.isOpen && t.js.streaming
    ensures var t := JsCallback(s);
            && s.js.streaming && (s.js.closing ==> s.js.isOpen)
            && t.js.readBytes == s.js.readBytes && t.js.readSlots == s.js.readSlots
            && t.log.produced == s.log.produced
            && (s.callbacks == [] || !s.callbacks[0].ReadDone? ==> t.log.received == s.log.received)
  {
    hide Settle, Finish, OnRead;
    if EventLoop(s) && s.callbacks != [] {
      match s.callbacks[0]
      case Opened =>
      case Closed => FinishKeepsAccount(s.js);
      case Done(id) => SettleKeepsAccount(s.js, id);
      case ReadDone(id, _) => SettleKeepsAccount(s.js, id);
      case ReadFailed(id) => SettleKeepsAccount(s.js, id);
      case Data(item) => OnReadKeepsAccount(s.js, item);
    }
  }

  lemma StreamsAreOpen(s: State)
    requires Inv(s) && s.js.streaming
    ensures InvLife(s) && InvExclusive(s) && (s.js.closing || s.js.isOpen)
  {
    hide InvWrites, InvReads, InvRequests, InvCredits, InvReservations, InvExclusive, InvReactive, InvQuiet, InvQueued;
  }

  /** While streaming no explicit read is answered. */
  lemma NoLateRead(s: State)
    requires InvLife(s) && InvExclusive(s) && s.js.streaming && s.callbacks != []
    ensures !s.callbacks[0].ReadDone?
  {
    hide ReadCommandIds;
    EventPop(s.callbacks);
  }

  lemma CallCharges(s: State, a: Action)
    requires Inv(s) && (a.AStartReading? || a.ATryWrite? || a.AEnqueue? || a.ASend?)
    requires var t := Step(s, a); t.js.isOpen && t.js.streaming && !ReceiverOpen(t.rx.phase)
    ensures Charged(s, Step(s, a))
  {
    hide Inv, Reject;
    match a
    case ASend => SendCharges(s);
    case AEnqueue => if s.call.Enqueuing? { RejectCharges(s, s.call.command); }
    case _ =>
  }

  lemma SendCharges(s: State)
    requires var t := JsSend(s); t.js.isOpen && t.js.streaming && !ReceiverOpen(t.rx.phase)
    ensures Charged(s, JsSend(s))
  {
    hide Reject, Charged;
    if s.call.Sending? {
      var c := s.call.command;
      RejectCharges(if c.Ordered() then s.(pendingOps := s.pendingOps - 1) else s, c);
    }
    SameCharges(s, JsSend(s));
  }

  lemma RejectCharges(s: State, c: Command)
    ensures var t := Reject(s, c);
            && t.log.produced == s.log.produced && t.log.received == s.log.received
            && t.js.readBytes == s.js.readBytes && t.js.readSlots == s.js.readSlots
            && t.js.isOpen == s.js.isOpen && t.js.streaming == s.js.streaming && t.rx == s.rx
  {
  }

  lemma ReadCharges(s: State, data: Bytes)
    requires Inv(s)
    requires var t := RxRead(s, data); t.js.isOpen && t.js.streaming && !ReceiverOpen(t.rx.phase)
    ensures Charged(s, RxRead(s, data))
  {
    hide Inv, NextSize;
    CallbackRoom(s);
    ReaderIsKnown(s);
  }

  lemma ReaderIsKnown(s: State)
    requires Inv(s)
    ensures s.rx.read.None? && ReadLength(s.rx).Some? ==> s.rx.streaming
  {
  }

  lemma BurstCharges(s: State, a: Action)
    requires Inv(s) && (a.RBurstRead? || a.RBurstEnd? || a.RPublish?)
    requires var t := Step(s, a); t.js.isOpen && t.js.streaming && !ReceiverOpen(t.rx.phase)
    ensures Charged(s, Step(s, a))
  {
    hide Inv;
  }

  lemma ReceiveCharges(s: State)
    requires Inv(s)
    requires var t := RxReceive(s); t.js.isOpen && t.js.streaming && !ReceiverOpen(t.rx.phase)
    ensures Charged(s, RxReceive(s))
  {
    hide Inv;
  }

  lemma OtherCharges(s: State, a: Action)
    requires Inv(s) && !a.AMicrotask? && !a.AListenerReturns? && !a.AListenerThrows? && !a.ACallback?
    requires !a.AStartReading? && !a.ATryWrite? && !a.AEnqueue? && !a.ASend?
    requires !a.RRead? && !a.RBurstRead? && !a.RBurstEnd? && !a.RPublish? && !a.RReceive?
    requires var t := Step(s, a); t.js.isOpen && t.js.streaming && !ReceiverOpen(t.rx.phase)
    ensures Charged(s, Step(s, a))
  {
    hide Inv;
  }

  lemma CoveredAfterCharge(s: State, t: State)
    requires Inv(s) && Inv(t) && Covered(s) && t.js.isOpen && Charged(s, t)
    ensures Covered(t)
  {
    hide Collect, InFlight, Inv;
    ReceivedFacts(s);
    ReceivedFacts(t);
    assert InFlight(s) == s.log.produced[|s.log.received|..];
    assert InFlight(t) == t.log.produced[|t.log.received|..];
    if t.log.received != s.log.received {
      var data := t.log.received[|s.log.received|];
      assert t.log.produced[|s.log.received|] == data;
      assert InFlight(s) == [data] + InFlight(t);
      assert InFlight(s)[1..] == InFlight(t);
    }
  }

  // ---- Queues -----------------------------------------------------------------------------------

  /** Admission and `try_send` succeed whenever the receiver is alive: neither the 64-operation
    limit nor the 96-slot channel is ever found exhausted. */
  lemma {:induction false} SubmissionsAreAdmitted(schedule: seq<Action>)
    ensures var s := Run(schedule);
            && (s.call.Enqueuing? && !s.stop ==> JsEnqueue(s).call.Sending?)
            && (s.call.Sending? && ReceiverOpen(s.rx.phase) ==>
                  JsSend(s).channel == s.channel + [s.call.command])
  {
    var s := Run(schedule);
    Safety(schedule);
    hide Inv;
    if s.call.Enqueuing? && !s.stop && s.call.command.Ordered() { AdmissionSucceeds(s); }
    if s.call.Sending? && ReceiverOpen(s.rx.phase) { ChannelHasRoom(s); }
  }

  /** At most 64 completions, 32 reads and two life-cycle events share the 128-slot queue, so
    no event is ever lost. */
  lemma {:induction false} CallbacksFit(schedule: seq<Action>)
    ensures |Run(schedule).callbacks| <= MAX_PENDING_OPS + READ_SLOTS + 2 < CALLBACK_CAPACITY
  {
    Safety(schedule);
    CallbackBound(Run(schedule));
  }

  /** Until the connection finishes, each pending id is in exactly one place: a callback, the
    completion being sent, the reactor's backlog or its explicit read, or the channel. */
  lemma {:induction false} EachRequestIsInOnePlace(schedule: seq<Action>)
    ensures var s := Run(schedule);
            && (!s.js.finished ==>
                  && multiset(Outstanding(s)) == multiset(Keys(s.js.pending, true))
                  && multiset(ReadIds(s)) == multiset(Keys(s.js.pending, false)))
            && s.pendingOps == |OrderedIds(s.rx.commands)| + |OrderedIds(s.channel)|
                               + (if s.call.Sending? && s.call.command.Ordered() then 1 else 0)
  {
    Safety(schedule);
  }

  /** Ordered operations settle in submission order, each exactly once. */
  lemma {:induction false} SettledInOrder(schedule: seq<Action>)
    ensures var s := Run(schedule);
            !s.js.finished ==> s.log.settled + Outstanding(s) == s.log.queued
                               && (s.js.pending == map[] ==> s.log.settled == s.log.queued)
  {
    var s := Run(schedule);
    Safety(schedule);
    if !s.js.finished && s.js.pending == map[] {
      assert Keys(s.js.pending, true) == {};
      assert |multiset(Outstanding(s))| == 0;
    }
  }

  // ---- Writes -------------------------------------------------------------------------------------

  /** No byte reaches the device twice, out of order or altered: the accepted cells carry the
    submitted values at strictly increasing positions of the submitted stream. */
  lemma {:induction false} WritesAreFaithful(schedule: seq<Action>)
    ensures var log := Run(schedule).log; Faithful(log.accepted, log.attempted)
  {
    var s := Run(schedule);
    Safety(schedule);
    AcceptedIsPromised(s);
  }

  lemma AcceptedIsPromised(s: State)
    requires Inv(s)
    ensures s.log.accepted <= s.log.promised && Faithful(s.log.accepted, s.log.attempted)
  {
    hide InvLife, InvReactive, InvExclusive, InvQuiet, InvRequests, InvReservations, InvReads, InvQueued, InvCredits;
    hide Pipeline, Gapped, Tag;
    assert s.log.promised == s.log.accepted + Pipeline(s);
  }

  /** No byte is skipped either, exactly until the device passes the point where a submission was
    rejected; while the reactor receives no submission is rejected after its stop check. */
  lemma {:induction false} WritesAreGapless(schedule: seq<Action>)
    ensures var s := Run(schedule);
            && (s.log.accepted <= Tag(s.log.attempted, 0)
                <==> (s.log.gap.None? || |s.log.accepted| <= s.log.gap.value))
            && (ReceiverOpen(s.rx.phase) ==> s.log.gap.None?)
  {
    var s := Run(schedule);
    Safety(schedule);
    AcceptedIsPromised(s);
    GapFacts(s);
    if s.log.gap.Some? && |s.log.accepted| > s.log.gap.value {
      assert s.log.accepted[s.log.gap.value] == s.log.promised[s.log.gap.value];
    }
  }

  lemma GapFacts(s: State)
    requires Inv(s)
    ensures ReceiverOpen(s.rx.phase) ==> s.log.gap.None?
    ensures s.log.gap.None? ==> s.log.promised == Tag(s.log.attempted, 0)
    ensures s.log.gap.Some? ==> s.log.gap.value < |s.log.attempted| && Gapped(s.log.promised, s.log.gap.value)
    ensures Faithful(s.log.promised, s.log.attempted)
  {
  }

  /** What the device has taken is what was submitted, as far as it goes. */
  ghost predicate Intact(s: State) { s.log.accepted <= Tag(s.log.attempted, 0) }

  /** The submission of a write is refused with bytes left over, and its caller is told. */
  predicate Refuses(s: State, a: Action) {
    || (a.AEnqueue? && s.call.Enqueuing? && s.call.command.Write? && s.call.command.data != []
        && (s.stop || s.pendingOps >= MAX_PENDING_OPS))
    || (a.ASend? && s.call.Sending? && s.call.command.Write? && s.call.command.data != []
        && (!ReceiverOpen(s.rx.phase) || |s.channel| >= CHANNEL_CAPACITY))
  }

  ghost predicate EverRefused(schedule: seq<Action>) {
    exists k :: 0 <= k < |schedule| && Refuses(Run(schedule[..k]), schedule[k])
  }

  lemma EverRefusedSnoc(schedule: seq<Action>, a: Action)
    ensures EverRefused(schedule + [a]) <==> EverRefused(schedule) || Refuses(Run(schedule), a)
  {
    hide Run, Refuses;
    var all, n := schedule + [a], |schedule|;
    assert all[..n] == schedule && all[n] == a;
    forall k | 0 <= k < n ensures all[..k] == schedule[..k] && all[k] == schedule[k] {}
    if EverRefused(schedule) {
      var k :| 0 <= k < n && Refuses(Run(schedule[..k]), schedule[k]);
      assert Refuses(Run(all[..k]), all[k]);
    }
    if EverRefused(all) {
      var k :| 0 <= k < n + 1 && Refuses(Run(all[..k]), all[k]);
      assert k < n ==> Refuses(Run(schedule[..k]), schedule[k]);
    }
  }

  lemma RefusalSetsGap(s: State, a: Action)
    ensures Step(s, a).log.gap.Some? <==> s.log.gap.Some? || Refuses(s, a)
  {
    hide Tag, Wanted, JsMicrotask, JsListenerReturns, JsListenerThrows, JsCallback, RxReceive, RxRead, RxPublish, RxComplete;
    match a
    case AMicrotask => LogOnly(s, a);
    case AListenerReturns => LogOnly(s, a);
    case AListenerThrows => LogOnly(s, a);
    case ACallback => LogOnly(s, a);
    case RReceive => LogOnly(s, a);
    case RRead(_) => LogOnly(s, a);
    case RPublish => LogOnly(s, a);
    case RComplete => LogOnly(s, a);
    case _ =>
  }

  lemma LogOnly(s: State, a: Action)
    requires a.AMicrotask? || a.AListenerReturns? || a.AListenerThrows? || a.ACallback?
             || a.RReceive? || a.RRead? || a.RPublish? || a.RComplete?
    ensures var t := Step(s, a);
            t.log.gap == s.log.gap && t.log.accepted == s.log.accepted && t.log.attempted == s.log.attempted
            && t.call == s.call
  {
    hide Step;
    if a.RReceive? || a.RRead? || a.RPublish? || a.RComplete? { ReactorLogOnly(s, a); } else { BindingLogOnly(s, a); }
  }

  lemma ReactorLogOnly(s: State, a: Action)
    requires a.RReceive? || a.RRead? || a.RPublish? || a.RComplete?
    ensures var t := Step(s, a);
            t.log.gap == s.log.gap && t.log.accepted == s.log.accepted && t.log.attempted == s.log.attempted
            && t.call == s.call
  {
    hide NextSize, Followers;
  }

  lemma BindingLogOnly(s: State, a: Action)
    requires a.AMicrotask? || a.AListenerReturns? || a.AListenerThrows? || a.ACallback?
    ensures var t := Step(s, a);
            t.log.gap == s.log.gap && t.log.accepted == s.log.accepted && t.log.attempted == s.log.attempted
            && t.call == s.call
  {
    hide Settle, Finish, OnRead;
  }

  /** A gap in the promised stream means that a caller has been told of a refused write. */
  lemma {:induction false} GapMeansRefused(schedule: seq<Action>)
    ensures Run(schedule).log.gap.Some? <==> EverRefused(schedule)
  {
    hide Step, Refuses;
    if schedule != [] {
      var rest, a := schedule[..|schedule| - 1], schedule[|schedule| - 1];
      assert schedule == rest + [a];
      GapMeansRefused(rest);
      RefusalSetsGap(Run(rest), a);
      hide EverRefused;
      EverRefusedSnoc(rest, a);
    }
  }

  /** The guard of the failing branch: an inline write that the device answers with bytes, between
    the end of the reactor's loop and its release of the port. */
  predicate LateInline(s: State, a: Action) {
    && a.ATryWrite? && a.count.Some? && s.call.Trying? && 0 < a.count.value <= |s.call.data|
    && s.rx.phase.Exited?
  }

  /** Exactly when a step ends the integrity of the written stream: an inline write in that window,
    after a caller has been told that an earlier write failed. */
  lemma {:induction false} PrefixBreaks(schedule: seq<Action>, a: Action)
    requires Intact(Run(schedule))
    ensures !Intact(Run(schedule + [a])) <==> LateInline(Run(schedule), a) && EverRefused(schedule)
  {
    hide Run, EverRefused, Inv, Intact;
    assert Run(schedule + [a]) == Step(Run(schedule), a) by { RunLast(schedule, a); }
    GapMeansRefused(schedule);
    Safety(schedule);
    StepBreaks(Run(schedule), a);
  }

  lemma RunLast(schedule: seq<Action>, a: Action)
    ensures Run(schedule + [a]) == Step(Run(schedule), a)
  {
    assert (schedule + [a])[..|schedule|] == schedule;
  }

  lemma StepBreaks(s: State, a: Action)
    requires Inv(s) && Intact(s)
    ensures !Intact(Step(s, a)) <==> LateInline(s, a) && s.log.gap.Some?
  {
    hide Inv, Step, Intact;
    if a.ATryWrite? && a.count.Some? && s.call.Trying? && 0 < a.count.value <= |s.call.data| && Writable(s.rx.phase) {
      InlineBreaks(s, a.count.value);
    } else if a.RWrite? {
      KeepStep(s, a);
      DeviceKeepsPrefix(s, a.taken);
    } else {
      NothingAccepted(s, a);
    }
  }

  predicate Writable(phase: Phase) { !phase.Bursting? && !phase.Released? && !phase.Gone? }

  lemma NothingAccepted(s: State, a: Action)
    requires Intact(s) && !a.RWrite?
    requires !(a.ATryWrite? && a.count.Some? && s.call.Trying? && 0 < a.count.value <= |s.call.data|
               && Writable(s.rx.phase))
    ensures Intact(Step(s, a)) && !LateInline(s, a)
  {
    AcceptedStays(s, a);
    var t := Step(s, a);
    hide Step;
    assert Tag(s.log.attempted, 0) <= Tag(t.log.attempted, 0);
  }

  lemma AcceptedStays(s: State, a: Action)
    requires !a.RWrite?
    requires !(a.ATryWrite? && a.count.Some? && s.call.Trying? && 0 < a.count.value <= |s.call.data|
               && Writable(s.rx.phase))
    ensures var t := Step(s, a); t.log.accepted == s.log.accepted && s.log.attempted <= t.log.attempted
  {
    hide Tag, JsMicrotask, JsListenerReturns, JsListenerThrows, JsCallback, RxReceive, RxRead, RxPublish, RxComplete;
    match a
    case AMicrotask => LogOnly(s, a);
    case AListenerReturns => LogOnly(s, a);
    case AListenerThrows => LogOnly(s, a);
    case ACallback => LogOnly(s, a);
    case RReceive => LogOnly(s, a);
    case RRead(_) => LogOnly(s, a);
    case RPublish => LogOnly(s, a);
    case RComplete => LogOnly(s, a);
    case _ =>
  }

  lemma DeviceKeepsPrefix(s: State, taken: nat)
    requires Inv(s) && Intact(s) && Inv(Step(s, RWrite(taken)))
    ensures Intact(Step(s, RWrite(taken)))
  {
    hide Inv;
    GapFacts(s);
    if Step(s, RWrite(taken)) != s { AcceptedIsPromised(RxWrite(s, taken)); }
  }

  /** The bytes of the call are the last ones submitted; behind a gap they are out of place. */
  lemma InlineBreaks(s: State, n: nat)
    requires Inv(s) && Intact(s) && s.call.Trying? && 0 < n <= |s.call.data| && Writable(s.rx.phase)
    ensures var t := Step(s, ATryWrite(Some(n)));
            (!Intact(t) <==> s.log.gap.Some?) && (s.log.gap.Some? ==> s.rx.phase.Exited?)
  {
    hide Inv, Step;
    var t := Step(s, ATryWrite(Some(n)));
    TryingFacts(s);
    assert t.log.accepted == s.log.accepted + s.call.data[..n] && t.log.attempted == s.log.attempted by { TakenInline(s, n); }
    if s.log.gap.None? {
      assert s.log.accepted + s.call.data == Tag(s.log.attempted, 0);
    } else {
      var i := |s.log.accepted|;
      assert t.log.accepted[i] == s.call.data[0];
      assert t.log.accepted[i].at == |s.log.attempted| - |s.call.data|;
      OutOfPlace(s);
    }
  }

  lemma TakenInline(s: State, n: nat)
    requires s.call.Trying? && n <= |s.call.data| && Writable(s.rx.phase)
    ensures var t := Step(s, ATryWrite(Some(n)));
            t.log.accepted == s.log.accepted + s.call.data[..n] && t.log.attempted == s.log.attempted
  {
  }

  lemma TryingFacts(s: State)
    requires Inv(s) && s.call.Trying?
    ensures s.log.promised == s.log.accepted + s.call.data
    ensures |s.call.data| <= |s.log.attempted|
    ensures forall i :: 0 <= i < |s.call.data| ==> s.call.data[i].at == |s.log.attempted| - |s.call.data| + i
    ensures s.log.gap.None? ==> s.log.promised == Tag(s.log.attempted, 0)
    ensures s.log.gap.Some? ==> s.log.gap.value < |s.log.attempted| && Gapped(s.log.promised, s.log.gap.value)
    ensures s.log.gap.Some? && Writable(s.rx.phase) ==> s.rx.phase.Exited?
  {
    hide Tag, Faithful, Gapped;
    TryWritePipeline(s, []);
  }

  lemma OutOfPlace(s: State)
    requires s.call.Trying? && s.call.data != [] && s.log.gap.Some?
    requires s.log.promised == s.log.accepted + s.call.data && |s.call.data| <= |s.log.attempted|
    requires forall i :: 0 <= i < |s.call.data| ==> s.call.data[i].at == |s.log.attempted| - |s.call.data| + i
    requires s.log.gap.value < |s.log.attempted| && Gapped(s.log.promised, s.log.gap.value)
    ensures |s.log.attempted| - |s.call.data| != |s.log.accepted|
  {
    var gap, n := s.log.gap.value, |s.log.accepted|;
    assert s.log.promised[n] == s.call.data[0];
    if n <= gap < |s.log.promised| { assert s.log.promised[gap] == s.call.data[gap - n]; }
  }

  /** No write is submitted once a write has been refused. */
  ghost predicate Cautious(schedule: seq<Action>) {
    forall k :: 0 <= k < |schedule| && schedule[k].AWrite? ==> !EverRefused(schedule[..k])
  }

  /** A caller that stops writing after a refused write never loses the prefix. */
  lemma {:induction false} CautiousWritesAreIntact(schedule: seq<Action>)
    requires Cautious(schedule)
    ensures Intact(Run(schedule))
    ensures EverRefused(schedule) ==> !Run(schedule).call.Checking? && !Run(schedule).call.Trying?
  {
    hide Step, Refuses, EverRefused, Intact;
    if schedule == [] {
      NothingRefused();
    } else {
      var rest, a := schedule[..|schedule| - 1], schedule[|schedule| - 1];
      assert schedule == rest + [a] && schedule[..|schedule| - 1] == rest;
      forall k | 0 <= k < |rest| && rest[k].AWrite? ensures !EverRefused(rest[..k]) {
        assert schedule[k] == rest[k] && schedule[..k] == rest[..k];
      }
      CautiousWritesAreIntact(rest);
      PrefixBreaks(rest, a);
      EverRefusedSnoc(rest, a);
      RefusalEndsCall(Run(rest), a);
    }
  }

  lemma NothingRefused()
    ensures !EverRefused([]) && Intact(Init())
  {
  }

  lemma RefusalEndsCall(s: State, a: Action)
    ensures Refuses(s, a) ==> Step(s, a).call == NoCall
    ensures !s.call.Checking? && !s.call.Trying? && !a.AWrite? ==>
              !Step(s, a).call.Checking? && !Step(s, a).call.Trying?
  {
    hide JsMicrotask, JsListenerReturns, JsListenerThrows, JsCallback, RxReceive, RxRead, RxPublish, RxComplete;
    match a
    case AMicrotask => LogOnly(s, a);
    case AListenerReturns => LogOnly(s, a);
    case AListenerThrows => LogOnly(s, a);
    case ACallback => LogOnly(s, a);
    case RReceive => LogOnly(s, a);
    case RRead(_) => LogOnly(s, a);
    case RPublish => LogOnly(s, a);
    case RComplete => LogOnly(s, a);
    case _ =>
  }

  /** When nothing is queued, in progress or rejected, every submitted byte has been accepted. */
  lemma {:induction false} WritesComplete(schedule: seq<Action>)
    requires var s := Run(schedule);
             s.rx.commands == [] && s.channel == [] && s.call == NoCall && s.log.gap.None?
    ensures var log := Run(schedule).log; log.accepted == Tag(log.attempted, 0)
  {
    Safety(schedule);
  }

  /** An inline write is attempted only when no earlier ordered operation is queued, in the
    reactor, or completed but not yet settled. */
  lemma {:induction false} InlineWritesOvertakeNothing(schedule: seq<Action>)
    ensures var s := Run(schedule);
            s.call.Trying? ==> s.rx.commands == [] && OrderedIds(s.channel) == [] && Outstanding(s) == []
  {
    var s := Run(schedule);
    Safety(schedule);
    if s.call.Trying? { NothingAhead(s); }
  }

  lemma NothingAhead(s: State)
    requires Inv(s) && s.call.Trying?
    ensures s.rx.commands == [] && OrderedIds(s.channel) == [] && Outstanding(s) == []
  {
    AllOrdered(s.rx.commands);
    LifeFacts(s);
  }

  /** The window between the reactor leaving its loop and setting stop: the first payload is
    accepted in part, its rest is rejected because the receiver is gone, and the next payload
    is still written inline.  The second byte is skipped. */
  const RACE: seq<Action> := [
    ROpen(true), ACallback,
    AWrite(1, [10, 20]), ALoad, RFail, ATryWrite(Some(1)), AEnqueue, ASend,
    AWrite(2, [30]), ALoad, ATryWrite(Some(1))]

  lemma RunStep(schedule: seq<Action>, k: nat)
    requires k < |schedule|
    ensures Run(schedule[..k + 1]) == Step(Run(schedule[..k]), schedule[k])
  {
    assert schedule[..k + 1][..k] == schedule[..k];
  }

  lemma RaceOpens()
    ensures Run(RACE[..2]) == Init().(js := Init().js.(isOpen := true), rx := Init().rx.(phase := Ready))
  {
    assert RACE[..0] == [];
    RunStep(RACE, 0);
    RunStep(RACE, 1);
  }

  lemma RaceTries()
    ensures var s, cells := Run(RACE[..4]), Tag([10, 20], 0);
            s == Init().(
              js := Init().js.(isOpen := true, ordered := 1),
              rx := Init().rx.(phase := Ready),
              call := Trying(1, cells),
              log := Init().log.(attempted := [10, 20], promised := cells))
  {
    hide Run;
    RaceOpens();
    RunStep(RACE, 2);
    RunStep(RACE, 3);
    assert [] + [10, 20] == [10, 20] && [] + Tag([10, 20], 0) == Tag([10, 20], 0);
  }

  lemma RaceFails()
    ensures var s, cells := Run(RACE[..5]), Tag([10, 20], 0);
            s == Init().(
              js := Init().js.(isOpen := true, ordered := 1),
              rx := Init().rx.(phase := Exited),
              call := Trying(1, cells),
              log := Init().log.(attempted := [10, 20], promised := cells))
  {
    hide Run;
    RaceTries();
    RunStep(RACE, 4);
  }

  lemma RaceWrites()
    ensures var s, cells := Run(RACE[..6]), Tag([10, 20], 0);
            s == Init().(
              js := Init().js.(isOpen := true, ordered := 1),
              rx := Init().rx.(phase := Exited),
              call := Enqueuing(Write(1, cells[1..])),
              log := Init().log.(attempted := [10, 20], promised := cells, accepted := [Cell(10, 0)]))
  {
    hide Run;
    RaceFails();
    RunStep(RACE, 5);
    assert [] + Tag([10, 20], 0)[..1] == [Cell(10, 0)];
  }

  /** The state after the first write was rejected. */
  lemma RaceRejects()
    ensures var s := Run(RACE[..8]);
            && s.js == Init().js.(isOpen := true) && s.delivery == Idle
            && s.call == NoCall && s.pendingOps == 0 && !s.stop && s.rx.phase == Exited
            && s.log.attempted == [10, 20] && s.log.accepted == s.log.promised == [Cell(10, 0)]
  {
    hide Run;
    RaceWrites();
    RunStep(RACE, 6);
    RunStep(RACE, 7);
    assert Tag([10, 20], 0)[..1] == [Cell(10, 0)];
  }

  lemma RejectedWriteLeavesGap()
    ensures var log := Run(RACE).log;
            && log.attempted == [10, 20, 30]
            && log.accepted == [Cell(10, 0), Cell(30, 2)]
            && !(log.accepted <= Tag(log.attempted, 0))
  {
    hide Run;
    RaceRejects();
    RunStep(RACE, 8);
    RunStep(RACE, 9);
    RunStep(RACE, 10);
    assert RACE[..11] == RACE;
    assert Run(RACE[..10]).call == Trying(2, Tag([30], 2));
    assert [10, 20] + [30] == [10, 20, 30];
    assert Tag([10, 20, 30], 0)[1] == Cell(20, 1);
  }

  // ---- Reads --------------------------------------------------------------------------------------

  /** The bytes handed to JavaScript are always a prefix of the bytes read from the device, and
    while nothing has been dropped by a close, the rest is in flight in device order. */
  lemma {:induction false} ReadsAreInOrder(schedule: seq<Action>)
    ensures var s := Run(schedule);
            && Flat(s.log.received) <= Flat(s.log.produced)
            && (s.js.isOpen || !s.js.streaming ==> s.log.received + InFlight(s) == s.log.produced)
  {
    var s := Run(schedule);
    Safety(schedule);
    ReceivedFacts(s);
    FlatPrefix(s.log.received, s.log.produced);
  }

  lemma ReceivedFacts(s: State)
    requires Inv(s)
    ensures s.log.received <= s.log.produced
    ensures s.js.isOpen || !s.js.streaming ==> s.log.received + InFlight(s) == s.log.produced
    ensures s.js.microtasks == |Fifo(s.js)| && (s.js.pendingRead.None? ==> s.js.queuedReads == [])
  {
  }

  /** Nothing is stranded: there is exactly one scheduled microtask per item of the FIFO, so a
    microtask always finds an item, and once both queues and the burst are empty and no listener
    runs, everything the device produced has been received. */
  lemma {:induction false} NothingIsStranded(schedule: seq<Action>)
    ensures var s := Run(schedule);
            && s.js.microtasks == |Fifo(s.js)|
            && (s.js.microtasks > 0 ==> s.js.pendingRead.Some?)
            && (InFlight(s) == [] <== s.js.microtasks == 0 && s.callbacks == [] && s.delivery == Idle
                                     && Collected(s.rx.phase) == [])
            && (InFlight(s) == [] && (s.js.isOpen || !s.js.streaming) ==> s.log.received == s.log.produced)
  {
    Safety(schedule);
    ReceivedFacts(Run(schedule));
  }

  /** A throwing listener loses nothing: what it had not been given goes back ahead of every
    later read. */
  lemma {:induction false} ThrowsLoseNothing(schedule: seq<Action>)
    ensures var s, t := Run(schedule), Run(schedule + [AListenerThrows]);
            s.js.isOpen ==> InFlight(t) == InFlight(s) && t.log == s.log
  {
    var s, t := Run(schedule), Run(schedule + [AListenerThrows]);
    assert (schedule + [AListenerThrows])[..|schedule|] == schedule;
    assert t == JsListenerThrows(s);
    Safety(schedule);
    Safety(schedule + [AListenerThrows]);
    if s.js.isOpen { ThrowsKeepReads(s); }
  }

  lemma ThrowsKeepReads(s: State)
    requires Inv(s) && s.js.isOpen
    ensures JsListenerThrows(s).js.isOpen && JsListenerThrows(s).log == s.log
    ensures InFlight(JsListenerThrows(s)) == InFlight(s)
  {
    hide Collect;
    KeepListenerThrows(s);
    var t := JsListenerThrows(s);
    ReceivedFacts(s);
    ReceivedFacts(t);
    assert InFlight(s) == s.log.produced[|s.log.received|..];
    assert InFlight(t) == t.log.produced[|t.log.received|..];
  }

  // ---- Bursts -------------------------------------------------------------------------------------

  /** A burst is entered only with an empty backlog and collects at most 15 followers after the
    first chunk. */
  lemma {:induction false} BurstsAreBounded(schedule: seq<Action>)
    ensures var s := Run(schedule);
            && |Collected(s.rx.phase)| < READ_BURST_LIMIT
            && (forall data :: s.rx.phase.Ready? && RxRead(s, data).rx.phase.FirstSent? ==>
                  s.rx.commands == [] && OrderedIds(s.channel) == [])
  {
    hide Run, Inv, Collected, OrderedIds;
    var s := Run(schedule);
    Safety(schedule);
    BurstFacts(s);
    forall data | s.rx.phase.Ready? && RxRead(s, data).rx.phase.FirstSent? ensures s.pendingOps == 0 {
      BurstNeedsIdle(s, data);
    }
  }

  /** Exactly when a streaming read starts a burst: no ordered operation is outstanding, the read filled
    its buffer or is at least 1 KiB, and it leaves bytes and slots. */
  lemma {:induction false} BurstsStart(schedule: seq<Action>, data: Bytes)
    requires var rx := Run(schedule).rx; rx.phase.Ready? && rx.streaming && ReadLength(rx).Some?
    requires data != [] && |data| <= Min(Run(schedule).rx.bytes, Run(schedule).rx.size)
    ensures var s := Run(schedule);
            RxRead(s, data).rx.phase.FirstSent?
            <==> s.pendingOps == 0 && (|data| == Min(s.rx.bytes, s.rx.size) || |data| >= 1024)
                 && |data| < s.rx.bytes && s.rx.slots > 1
  {
    hide Run, Inv, NextSize;
    var s := Run(schedule);
    Safety(schedule);
    BurstFacts(s);
    ReadCapacity(schedule);
    StreamHasNoRead(s);
  }

  lemma StreamHasNoRead(s: State)
    requires Inv(s) && s.rx.streaming
    ensures s.rx.read.None? && |s.callbacks| < CALLBACK_CAPACITY
  {
    CallbackBound(s);
    hide InvLife, InvReactive, InvQuiet, InvRequests, InvReservations, InvWrites, InvReads, InvQueued, InvCredits;
  }

  lemma BurstNeedsIdle(s: State, data: Bytes)
    requires s.rx.phase.Ready? && RxRead(s, data).rx.phase.FirstSent?
    ensures s.pendingOps == 0
  {
    hide NextSize;
  }

  lemma BurstFacts(s: State)
    requires Inv(s)
    ensures |Collected(s.rx.phase)| < READ_BURST_LIMIT
    ensures s.pendingOps == 0 ==> s.rx.commands == [] && OrderedIds(s.channel) == []
  {
    AllOrdered(s.rx.commands);
  }
}
