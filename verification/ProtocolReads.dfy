/** When a stream of reads goes on. */
module ProtocolReads {
  import opened Common
  import opened Protocol
  import opened ProtocolInvariant
  import opened ProtocolSafety
  import ProtocolTheorems

  // ---- What a credit is spent on -----------------------------------------------------------------------

  ghost predicate Solid(chunks: seq<Bytes>) { forall c :: c in chunks ==> c != [] }

  /** Every slot spent since the last credit has cost a byte at least. */
  ghost predicate Account(window: int, bytes: int, slots: int) {
    && (window == 0 ==> bytes == 0 && slots == 0)
    && (window != 0 ==> window >= 1 && slots <= 32 && 32 - slots <= window - bytes && (slots == 32 ==> bytes == window))
  }

  /** A credit that is being submitted fills the slots. */
  ghost predicate Filling(call: Call, bytes: int, slots: int) {
    CreditCall(call) ==> slots + call.command.slots == 32 && bytes + call.command.bytes >= 1
  }

  ghost predicate Spent(s: State) {
    && Account(s.log.window, s.js.readBytes, s.js.readSlots)
    && Filling(s.call, s.js.readBytes, s.js.readSlots)
    && Solid(s.log.produced)
  }

  lemma {:induction false} AccountIsSpent(schedule: seq<Action>)
    ensures Spent(Run(schedule))
  {
    hide Step, Inv, Spent;
    if schedule == [] {
      InitSpent();
    } else {
      var rest, a := schedule[..|schedule| - 1], schedule[|schedule| - 1];
      AccountIsSpent(rest);
      Safety(rest);
      Safety(schedule);
      ProtocolTheorems.AccountIsCovered(schedule);
      SpentStep(Run(rest), a);
    }
  }

  lemma InitSpent()
    ensures Spent(Init())
  {
  }

  lemma SpentStep(s: State, a: Action)
    requires Inv(s) && Spent(s) && Inv(Step(s, a))
    requires var t := Step(s, a); t.js.isOpen ==> t.js.readSlots >= 0
    ensures Spent(Step(s, a))
  {
    hide Inv, Spent;
    match a
    case AStartReading(length) => SpentStart(s, length);
    case AEnqueue => SpentEnqueue(s);
    case ASend => SpentSend(s);
    case AMicrotask => SpentDelivery(s, a);
    case AListenerReturns => SpentDelivery(s, a);
    case AListenerThrows => SpentDelivery(s, a);
    case ACallback => SpentCallback(s);
    case RRead(data) => SpentRead(s, data);
    case RBurstRead(data) => SpentBurst(s, data);
    case _ => SpentOther(s, a);
  }

  lemma SpentStart(s: State, length: int)
    requires Spent(s)
    ensures Spent(JsStartReading(s, length))
  {
    hide Solid, Account;
  }

  lemma SpentEnqueue(s: State)
    requires Spent(s)
    ensures Spent(JsEnqueue(s))
  {
    hide Solid, Account;
  }

  lemma SpentSend(s: State)
    requires Spent(s)
    ensures Spent(JsSend(s))
  {
    hide Solid;
    if s.call.Sending? {
      if s.call.command.Credit? { SpentCredit(s); } else { SubmitKeepsAccount(s); }
    }
  }

  lemma SpentCredit(s: State)
    requires Spent(s) && s.call.Sending? && s.call.command.Credit?
    ensures Spent(JsSend(s))
  {
    hide Solid;
  }

  lemma SubmitKeepsAccount(s: State)
    requires s.call.Sending? && !s.call.command.Credit?
    ensures var t := JsSend(s);
            && t.js.readBytes == s.js.readBytes && t.js.readSlots == s.js.readSlots && t.call == NoCall
            && t.log.window == s.log.window && t.log.produced == s.log.produced
  {
  }

  /** Nothing is delivered, or one chunk is charged. */
  ghost predicate Delivers(s: State, t: State) {
    && t.log.produced == s.log.produced && t.log.window == s.log.window && (t.call == NoCall || t.call == s.call)
    && ((t.js.readBytes == s.js.readBytes && t.js.readSlots == s.js.readSlots)
        || (t.js.isOpen && t.call == NoCall && t.log.received != [] &&
            var data := t.log.received[|t.log.received| - 1];
            t.js.readBytes == s.js.readBytes - |data| && t.js.readSlots == s.js.readSlots - 1))
  }

  lemma SpentDelivery(s: State, a: Action)
    requires a.AMicrotask? || a.AListenerReturns? || a.AListenerThrows?
    requires Spent(s) && Inv(Step(s, a))
    requires var t := Step(s, a); t.js.isOpen ==> t.js.readSlots >= 0
    ensures Spent(Step(s, a))
  {
    hide Step, Inv;
    var t := Step(s, a);
    DeliverySteps(s, a);
    ProtocolTheorems.ReceivedFacts(t);
    if t.js.readSlots != s.js.readSlots {
      var data := t.log.received[|t.log.received| - 1];
      assert data in t.log.produced;
    }
  }

  lemma DeliverySteps(s: State, a: Action)
    requires a.AMicrotask? || a.AListenerReturns? || a.AListenerThrows?
    ensures Delivers(s, Step(s, a))
  {
  }

  lemma SpentCallback(s: State)
    requires Spent(s)
    ensures Spent(JsCallback(s))
  {
    hide Solid, Account, Filling;
    hide Finish, OnRead, Settle;
    if EventLoop(s) && s.callbacks != [] { CallbackKeepsAccount(s); }
  }

  lemma CallbackKeepsAccount(s: State)
    requires EventLoop(s) && s.callbacks != []
    ensures var t := JsCallback(s);
            && t.js.readBytes == s.js.readBytes && t.js.readSlots == s.js.readSlots && t.call == s.call
            && t.log.window == s.log.window && t.log.produced == s.log.produced
  {
    hide Finish, OnRead, Settle;
    match s.callbacks[0]
    case Opened =>
    case Closed => ProtocolTheorems.FinishKeepsAccount(s.js);
    case Done(id) => ProtocolTheorems.SettleKeepsAccount(s.js, id);
    case ReadDone(id, _) => ProtocolTheorems.SettleKeepsAccount(s.js, id);
    case ReadFailed(id) => ProtocolTheorems.SettleKeepsAccount(s.js, id);
    case Data(item) => ProtocolTheorems.OnReadKeepsAccount(s.js, item);
  }

  lemma SpentRead(s: State, data: Bytes)
    requires Spent(s)
    ensures Spent(RxRead(s, data))
  {
    hide NextSize, Account, Filling;
  }

  lemma SpentBurst(s: State, data: Bytes)
    requires Spent(s)
    ensures Spent(RxBurstRead(s, data))
  {
    hide NextSize, Account, Filling;
  }

  lemma SpentOther(s: State, a: Action)
    requires Spent(s)
    requires !a.AStartReading? && !a.AEnqueue? && !a.ASend? && !a.AMicrotask? && !a.AListenerReturns?
    requires !a.AListenerThrows? && !a.ACallback? && !a.RRead? && !a.RBurstRead?
    ensures Spent(Step(s, a))
  {
    hide Solid, Account, Tag;
  }

  // ---- Starting to read --------------------------------------------------------------------------------

  function Window(length: int): int { if length < 1 then 1 else if length < 65536 then length else 65536 }

  /** `startReading` with its credit submitted. */
  function Start(length: int): seq<Action> { [AStartReading(length), AEnqueue, ASend] }

  lemma RunStart(schedule: seq<Action>, length: int)
    ensures Run(schedule + Start(length)) == Step(Step(Step(Run(schedule), AStartReading(length)), AEnqueue), ASend)
  {
    hide Run, Step;
    var one := schedule + [AStartReading(length)];
    assert schedule + Start(length) == one + [AEnqueue] + [ASend];
    ProtocolTheorems.RunLast(schedule, AStartReading(length));
    ProtocolTheorems.RunLast(one, AEnqueue);
    ProtocolTheorems.RunLast(one + [AEnqueue], ASend);
  }

  /** Nobody prevents the port from reading. */
  predicate MayStart(s: State) {
    s.call == NoCall && s.js.isOpen && !s.js.closing && !s.js.reading && !s.stop && ReceiverOpen(s.rx.phase)
  }

  /** All slots are spent, but not all bytes of the window that is asked for now. */
  predicate SlotsSpent(s: State, length: int) { s.js.readSlots == 0 && s.js.readBytes >= Window(length) }

  /** Exactly when `startReading` leaves credit to read with: unless all slots have been spent on fewer
    bytes than an earlier window had and this one has no more.  With windows that never shrink there
    always is. */
  lemma {:induction false} StartLeavesCredit(schedule: seq<Action>, length: int)
    requires MayStart(Run(schedule))
    ensures var s, t := Run(schedule), Run(schedule + Start(length));
            && t.call == NoCall && t.js.isOpen && t.js.streaming && t.rx == s.rx && InFlight(t) == InFlight(s)
            && (t.js.readBytes > 0 && t.js.readSlots > 0 <==> !SlotsSpent(s, length))
            && (Window(length) >= s.log.window ==> !SlotsSpent(s, length))
  {
    hide Run, Step, InFlight;
    var one := schedule + [AStartReading(length)];
    RunStart(schedule, length);
    ProtocolTheorems.RunLast(schedule, AStartReading(length));
    ProtocolTheorems.RunLast(one, AEnqueue);
    AccountIsSpent(schedule);
    ProtocolTheorems.AccountIsCovered(schedule);
    ProtocolTheorems.SubmissionsAreAdmitted(one + [AEnqueue]);
    StartSteps(Run(schedule), length);
  }

  lemma StartSteps(s: State, length: int)
    requires MayStart(s)
    requires var u := Step(Step(s, AStartReading(length)), AEnqueue);
             u.call.Sending? && ReceiverOpen(u.rx.phase) ==> JsSend(u).channel == u.channel + [u.call.command]
    ensures var t := Step(Step(Step(s, AStartReading(length)), AEnqueue), ASend);
            && t.call == NoCall && t.js.isOpen && t.js.streaming && t.rx == s.rx && InFlight(t) == InFlight(s)
            && if (2 * s.js.readBytes <= Window(length) || 2 * s.js.readSlots <= 32)
                  && s.js.readBytes < Window(length) && s.js.readSlots < 32
               then t.js.readBytes == Window(length) && t.js.readSlots == 32
               else t.js.readBytes == s.js.readBytes && t.js.readSlots == s.js.readSlots
  {
    hide Collect;
  }

  // ---- What the reactor is offered -----------------------------------------------------------------------

  /** With nothing in flight and no credit under way, the reactor has what JavaScript has granted, and
    reads exactly while some of both is left. */
  lemma {:induction false} CreditOffersRead(schedule: seq<Action>)
    requires var s := Run(schedule);
             s.js.isOpen && s.js.streaming && ReceiverOpen(s.rx.phase) && InFlight(s) == [] && s.channel == []
    ensures var s := Run(schedule);
            ReadLength(s.rx) == if s.js.readBytes > 0 && s.js.readSlots > 0 then Some(s.js.readBytes) else None
  {
    hide Run, Inv, InFlight;
    ProtocolTheorems.CreditsAreConserved(schedule);
    ProtocolTheorems.CreditsAreValid(schedule);
    Safety(schedule);
    NoExplicitRead(Run(schedule));
    assert Flat<byte>([]) == [];
  }

  lemma NoExplicitRead(s: State)
    requires Inv(s) && s.js.streaming && ReceiverOpen(s.rx.phase)
    ensures s.rx.read.None?
  {
    hide InvReactive, InvQuiet, InvRequests, InvReservations, InvWrites, InvReads, InvQueued, InvCredits, Life;
    LifeFacts(s);
  }

  function Receives(n: nat): seq<Action> { seq(n, _ => RReceive) }

  /** The reactor takes over all commands, and nothing else changes. */
  lemma {:induction false} ReceiveAll(schedule: seq<Action>, n: nat)
    requires Run(schedule).rx.phase.Ready? && Run(schedule).js.streaming && n <= |Run(schedule).channel|
    ensures var s, t := Run(schedule), Run(schedule + Receives(n));
            t.rx.phase.Ready? && t.js == s.js && t.channel == s.channel[n..] && InFlight(t) == InFlight(s)
  {
    hide Run, Step, Inv, InFlight;
    if n == 0 {
      assert schedule + Receives(0) == schedule;
    } else {
      var before := schedule + Receives(n - 1);
      assert schedule + Receives(n) == before + [RReceive];
      ReceiveAll(schedule, n - 1);
      ProtocolTheorems.RunLast(before, RReceive);
      ProtocolTheorems.CreditsAreValid(before);
      ReceiveMovesNothing(Run(before));
    }
  }

  lemma ReceiveMovesNothing(s: State)
    requires s.rx.phase.Ready? && s.channel != [] && RxReceive(s).rx.phase.Ready?
    requires s.channel[0].Read? ==> RxReceive(s).callbacks == s.callbacks
    ensures var t := Step(s, RReceive);
            t.rx.phase.Ready? && t.js == s.js && t.channel == s.channel[1..] && InFlight(t) == InFlight(s)
  {
    hide Collect;
  }

  /** `startReading` with nothing in flight: once the reactor has taken over the commands in the channel
    it is offered a read, exactly unless the slots have been spent. */
  lemma {:induction false} StartIsHeard(schedule: seq<Action>, length: int)
    requires MayStart(Run(schedule)) && Run(schedule).rx.phase.Ready? && InFlight(Run(schedule)) == []
    ensures var s, before := Run(schedule), schedule + Start(length);
            var t := Run(before + Receives(|Run(before).channel|));
            && t.rx.phase.Ready? && t.channel == []
            && (ReadLength(t.rx).Some? <==> !SlotsSpent(s, length))
            && (Window(length) >= s.log.window ==> ReadLength(t.rx).Some?)
  {
    hide Run, Inv, InFlight;
    var before := schedule + Start(length);
    StartLeavesCredit(schedule, length);
    ReceiveAll(before, |Run(before).channel|);
    CreditOffersRead(before + Receives(|Run(before).channel|));
  }

  // ---- A window that shrinks -----------------------------------------------------------------------------

  /** An idle stream whose last `k` slots have been spent on one byte each. */
  ghost predicate Spending(s: State, k: nat) {
    && s.call == NoCall && s.delivery == Idle && s.js.isOpen && !s.js.closing && !s.js.reading && s.js.streaming
    && !s.stop && s.rx.phase == Ready && s.channel == [] && s.callbacks == [] && s.pendingOps == 0
    && s.rx.commands == [] && s.rx.read.None? && s.rx.streaming && s.rx.size >= 64
    && s.rx.bytes == s.js.readBytes == 65536 - k && s.rx.slots == s.js.readSlots == 32 - k
    && s.js.pendingRead.None? && s.js.queuedReads == [] && s.js.microtasks == 0
  }

  const OPENING: seq<Action> := [ROpen(true), ACallback]

  lemma RunNothing()
    ensures Run([]) == Init()
  {
  }

  ghost predicate JustOpened(s: State) {
    s == Init().(js := Init().js.(isOpen := true), rx := Init().rx.(phase := Ready))
  }

  lemma OpeningSteps()
    ensures JustOpened(Step(Step(Init(), ROpen(true)), ACallback))
  {
  }

  lemma FirstCredit(s: State)
    requires JustOpened(s)
    ensures Spending(Step(Step(Step(Step(s, AStartReading(65536)), AEnqueue), ASend), RReceive), 0)
  {
    var t := Step(Step(Step(s, AStartReading(65536)), AEnqueue), ASend);
    assert t.channel == [Credit(65536, 32)];
  }

  lemma Opens()
    ensures Spending(Run(OPENING + Start(65536) + [RReceive]), 0)
  {
    hide Run, Step, JustOpened, Spending;
    RunNothing();
    ProtocolTheorems.RunLast([], ROpen(true));
    ProtocolTheorems.RunLast([ROpen(true)], ACallback);
    assert [] + [ROpen(true)] == [ROpen(true)] && [ROpen(true)] + [ACallback] == OPENING;
    OpeningSteps();
    RunStart(OPENING, 65536);
    ProtocolTheorems.RunLast(OPENING + Start(65536), RReceive);
    FirstCredit(Run(OPENING));
  }

  /** The device returns one byte, which is delivered before it returns the next. */
  lemma OneByte(s: State, k: nat)
    requires Spending(s, k) && k < 32
    ensures Spending(Step(Step(Step(Step(s, RRead([0])), ACallback), AMicrotask), AListenerReturns), k + 1)
  {
    hide Step, Spending;
    ByteArrives(s, k);
    ByteIsDelivered(Step(Step(s, RRead([0])), ACallback), k);
  }

  /** The byte waits for its microtask. */
  ghost predicate Holding(s: State, k: nat) {
    && s.js.pendingRead == Some(Single([0])) && s.js.microtasks == 1 && k < 32
    && s.rx.bytes == 65536 - k - 1 && s.rx.slots == 32 - k - 1
    && Spending(s.(js := s.js.(pendingRead := None, microtasks := 0),
                   rx := s.rx.(bytes := s.rx.bytes + 1, slots := s.rx.slots + 1)), k)
  }

  lemma ByteArrives(s: State, k: nat)
    requires Spending(s, k) && k < 32
    ensures Holding(Step(Step(s, RRead([0])), ACallback), k)
  {
    hide Step, RxRead;
    ByteIsRead(s, k);
    CallbackStores(RxRead(s, [0]));
    assert Step(s, RRead([0])) == RxRead(s, [0]) by { ReadStep(s, [0]); }
  }

  lemma ReadStep(s: State, data: Bytes)
    ensures Step(s, RRead(data)) == RxRead(s, data)
  {
    hide RxRead;
  }

  lemma ByteIsRead(s: State, k: nat)
    requires Spending(s, k) && k < 32
    ensures var t := RxRead(s, [0]);
            t.callbacks == [Data(Single([0]))] && t.call == NoCall && t.delivery == Idle
            && Holding(t.(callbacks := [], js := OnRead(t.js, Single([0]))), k)
  {
    hide NextSize;
    PartialSize(s.rx.size, Min(s.rx.bytes, s.rx.size));
  }

  lemma CallbackStores(s: State)
    requires s.callbacks == [Data(Single([0]))] && s.call == NoCall && s.delivery == Idle
    ensures Step(s, ACallback) == s.(callbacks := [], js := OnRead(s.js, Single([0])))
  {
    hide OnRead;
    var queue := s.callbacks;
    assert queue[1..] == [];
  }

  lemma ByteIsDelivered(s: State, k: nat)
    requires Holding(s, k)
    ensures Spending(Step(Step(s, AMicrotask), AListenerReturns), k + 1)
  {
  }

  lemma PartialSize(size: nat, capacity: nat)
    requires capacity > 1
    ensures NextSize(size, 1, capacity) >= 64
  {
  }

  lemma {:induction false} ManyBytes(k: nat) returns (schedule: seq<Action>)
    requires k <= 32
    ensures Spending(Run(schedule), k)
  {
    hide Run, Step, Spending;
    if k == 0 {
      Opens();
      return OPENING + Start(65536) + [RReceive];
    }
    var before := ManyBytes(k - 1);
    ProtocolTheorems.RunLast(before, RRead([0]));
    ProtocolTheorems.RunLast(before + [RRead([0])], ACallback);
    ProtocolTheorems.RunLast(before + [RRead([0])] + [ACallback], AMicrotask);
    ProtocolTheorems.RunLast(before + [RRead([0])] + [ACallback] + [AMicrotask], AListenerReturns);
    OneByte(Run(before), k - 1);
    return before + [RRead([0])] + [ACallback] + [AMicrotask] + [AListenerReturns];
  }

  /** 32 chunks of one byte, and then a window of no more than what is left: `startReading` succeeds and
    the stream never reads again. */
  lemma ShrinkingStalls() returns (schedule: seq<Action>)
    ensures var s := Run(schedule);
            MayStart(s) && s.rx.phase.Ready? && InFlight(s) == [] && s.channel == []
            && s.js.readBytes == 65504 && SlotsSpent(s, 65504)
    ensures ReadLength(Run(schedule + Start(65504)).rx).None?
  {
    hide Run, Step, Inv;
    schedule := ManyBytes(32);
    NothingInFlight(Run(schedule));
    StartLeavesCredit(schedule, 65504);
    CreditOffersRead(schedule);
  }

  lemma NothingInFlight(s: State)
    requires Spending(s, 32)
    ensures InFlight(s) == []
  {
  }
}
