/** What is left when a connection has ended. */
module ProtocolClosing {
  import opened Common
  import opened Protocol
  import opened ProtocolInvariant
  import opened ProtocolSafety
  import ProtocolTheorems

  /** Once the close has been reported no request is pending and no ordering is reserved, but for a call
    that is just being refused. */
  ghost predicate Settled(s: State) {
    s.js.finished ==> s.js.pending == map[] && s.js.ordered == if OrderedCall(s.call) then 1 else 0
  }

  lemma {:induction false} ClosedLeavesNothing(schedule: seq<Action>)
    ensures Settled(Run(schedule))
  {
    hide Step, Inv, Settled;
    if schedule == [] {
      InitSettled();
    } else {
      var rest, a := schedule[..|schedule| - 1], schedule[|schedule| - 1];
      ClosedLeavesNothing(rest);
      Safety(rest);
      SettledStep(Run(rest), a);
    }
  }

  lemma InitSettled()
    ensures Settled(Init())
  {
  }

  lemma SettledStep(s: State, a: Action)
    requires Inv(s) && Settled(s)
    ensures Settled(Step(s, a))
  {
    hide InvReactive, InvExclusive, InvQuiet, InvRequests, InvReservations, InvWrites, InvReads, InvQueued, InvCredits, Life;
    LifeFacts(s);
    if a.ACallback? {
      hide Settle, OnRead;
      SettledCallback(s);
    } else if s.js.finished {
      SettledGone(s, a);
    } else {
      hide Step;
      OnlyCallbacksFinish(s, a);
    }
  }

  lemma SettledCallback(s: State)
    requires s.js.finished ==> s.callbacks == []
    requires Settled(s)
    ensures Settled(JsCallback(s))
  {
    hide Settle, OnRead;
    if EventLoop(s) && s.callbacks != [] {
      match s.callbacks[0]
      case Opened =>
      case Closed =>
      case Done(id) => SettleKeepsFinished(s.js, id);
      case ReadDone(id, _) => SettleKeepsFinished(s.js, id);
      case ReadFailed(id) => SettleKeepsFinished(s.js, id);
      case Data(item) => OnReadKeepsFinished(s.js, item);
    }
  }

  lemma SettleKeepsFinished(js: Binding, id: nat)
    ensures Settle(js, id).finished == js.finished
  {
  }

  lemma OnReadKeepsFinished(js: Binding, item: Item)
    ensures OnRead(js, item).finished == js.finished
  {
  }

  lemma OnlyCallbacksFinish(s: State, a: Action)
    requires !a.ACallback?
    ensures Step(s, a).js.finished == s.js.finished
  {
    if OnReactor(a) { ReactorKeepsBinding(s, a); } else { BindingKeepsFinished(s, a); }
  }

  predicate OnReactor(a: Action) {
    a.ROpen? || a.RReceive? || a.RComplete? || a.RPublishDone? || a.RWrite? || a.RRead? || a.RBurstLock? || a.RBurstRead?
    || a.RBurstEnd? || a.RPublish? || a.RFail? || a.RRelease? || a.RClose?
  }

  lemma ReactorKeepsBinding(s: State, a: Action)
    requires OnReactor(a)
    ensures Step(s, a).js == s.js && Step(s, a).call == s.call && Step(s, a).delivery == s.delivery
  {
    hide RxRead, RxReceive;
    match a
    case RRead(data) => ReadKeepsBinding(s, data);
    case RReceive => ReceiveKeepsBinding(s);
    case _ => OtherKeepsBinding(s, a);
  }

  predicate SameSide(s: State, t: State) { t.js == s.js && t.call == s.call && t.delivery == s.delivery }

  lemma ReadKeepsBinding(s: State, data: Bytes)
    ensures SameSide(s, RxRead(s, data))
  {
    hide NextSize;
  }

  lemma ReceiveKeepsBinding(s: State)
    ensures SameSide(s, RxReceive(s))
  {
  }

  lemma OtherKeepsBinding(s: State, a: Action)
    requires OnReactor(a) && !a.RRead? && !a.RReceive?
    ensures SameSide(s, Step(s, a))
  {
    hide NextSize, Followers;
  }

  lemma BindingKeepsFinished(s: State, a: Action)
    requires !OnReactor(a) && !a.ACallback?
    ensures Step(s, a).js.finished == s.js.finished
  {
    hide Step;
    if OnDelivery(a) { DeliveryLeaves(s, a); } else { CallsLeave(s, a); }
  }

  predicate OnDelivery(a: Action) { a.AMicrotask? || a.AListenerReturns? || a.AListenerThrows? }

  /** What a delivery does not touch. */
  lemma DeliveryLeaves(s: State, a: Action)
    requires OnDelivery(a)
    ensures SameRequests(s, Step(s, a))
  {
    hide Deliver, SameRequests;
    match a
    case AMicrotask =>
      if EventLoop(s) && s.js.microtasks > 0 {
        TakeReadLeaves(s);
        if s.js.pendingRead.Some? { DeliverLeaves(s, s.(js := TakeRead(s.js)), Chunks(s.js.pendingRead.value), 0); }
      } else {
        NothingLeaves(s);
      }
    case AListenerReturns =>
      NothingLeaves(s);
      if s.call == NoCall && s.delivery.Listening? { DeliverLeaves(s, s, s.delivery.events, s.delivery.index); }
    case AListenerThrows => ThrowLeaves(s);
  }

  ghost predicate SameRequests(s: State, t: State) {
    && t.js.finished == s.js.finished && t.js.isOpen == s.js.isOpen && t.js.closing == s.js.closing
    && t.js.pending == s.js.pending && t.js.ordered == s.js.ordered && t.call == s.call
  }

  lemma NothingLeaves(s: State)
    ensures SameRequests(s, s)
  {
  }

  lemma TakeReadLeaves(s: State)
    requires s.js.microtasks > 0
    ensures SameRequests(s, s.(js := TakeRead(s.js)))
  {
  }

  lemma ThrowLeaves(s: State)
    ensures SameRequests(s, JsListenerThrows(s))
  {
  }

  lemma DeliverLeaves(s: State, t: State, events: seq<Bytes>, index: nat)
    requires SameRequests(s, t)
    ensures SameRequests(s, Deliver(t, events, index))
  {
  }

  ghost predicate KeepsEnd(s: State, t: State) {
    t.js.finished == s.js.finished && (s.js.closing && !s.js.isOpen ==> t.js.closing && !t.js.isOpen)
  }

  lemma CallsLeave(s: State, a: Action)
    requires !OnReactor(a) && !OnDelivery(a) && !a.ACallback?
    ensures KeepsEnd(s, Step(s, a))
  {
    if a.ATryWrite? || a.AEnqueue? || a.ASend? {
      SubmissionsLeave(s, a);
    } else {
      OtherCallsLeave(s, a);
    }
  }

  lemma SubmissionsLeave(s: State, a: Action)
    requires a.ATryWrite? || a.AEnqueue? || a.ASend?
    ensures KeepsEnd(s, Step(s, a))
  {
    hide KeepsEnd;
    match a
    case ATryWrite(count) => TryWriteEnd(s, count);
    case AEnqueue => EnqueueEnd(s);
    case ASend => SendEnd(s);
  }

  lemma TryWriteEnd(s: State, count: Option<nat>)
    ensures KeepsEnd(s, JsTryWrite(s, count))
  {
  }

  lemma EnqueueEnd(s: State)
    ensures KeepsEnd(s, JsEnqueue(s))
  {
  }

  lemma SendEnd(s: State)
    ensures KeepsEnd(s, JsSend(s))
  {
  }

  lemma OtherCallsLeave(s: State, a: Action)
    requires !OnReactor(a) && !OnDelivery(a) && !a.ACallback? && !a.ATryWrite? && !a.AEnqueue? && !a.ASend?
    ensures KeepsEnd(s, Step(s, a))
  {
    hide Tag, Wanted;
  }

  /** The reactor is gone, so nothing more is submitted. */
  lemma SettledGone(s: State, a: Action)
    requires Settled(s) && s.js.finished && s.rx.phase.Gone? && !a.ACallback?
    ensures Settled(Step(s, a))
  {
    if OnReactor(a) { ReactorKeepsBinding(s, a); } else { BindingSettledGone(s, a); }
  }

  lemma BindingSettledGone(s: State, a: Action)
    requires Settled(s) && s.js.finished && s.rx.phase.Gone? && !a.ACallback? && !OnReactor(a)
    ensures Settled(Step(s, a))
  {
    if OnDelivery(a) {
      hide Step;
      DeliveryLeaves(s, a);
    } else {
      CallsSettledGone(s, a);
    }
  }

  lemma CallsSettledGone(s: State, a: Action)
    requires Settled(s) && s.js.finished && s.rx.phase.Gone? && !a.ACallback? && !OnReactor(a) && !OnDelivery(a)
    ensures Settled(Step(s, a))
  {
    hide Tag;
  }

  /** A port that has been closed, or whose opening has been cancelled before it was reported, never
    opens again. */
  lemma NeverReopens(s: State, a: Action)
    requires s.js.closing && !s.js.isOpen
    ensures Step(s, a).js.closing && !Step(s, a).js.isOpen
  {
    hide Step;
    if OnReactor(a) {
      ReactorKeepsBinding(s, a);
    } else if a.ACallback? {
      CallbackNeverReopens(s);
    } else {
      BindingNeverReopens(s, a);
    }
  }

  lemma CallbackNeverReopens(s: State)
    requires s.js.closing && !s.js.isOpen
    ensures var t := Step(s, ACallback); t.js.closing && !t.js.isOpen
  {
    hide Settle, Finish, OnRead;
    if EventLoop(s) && s.callbacks != [] {
      match s.callbacks[0]
      case Opened =>
      case Closed => ProtocolTheorems.FinishKeepsAccount(s.js);
      case Done(id) => ProtocolTheorems.SettleKeepsAccount(s.js, id);
      case ReadDone(id, _) => ProtocolTheorems.SettleKeepsAccount(s.js, id);
      case ReadFailed(id) => ProtocolTheorems.SettleKeepsAccount(s.js, id);
      case Data(item) => ProtocolTheorems.OnReadKeepsAccount(s.js, item);
    }
  }

  lemma BindingNeverReopens(s: State, a: Action)
    requires s.js.closing && !s.js.isOpen && !OnReactor(a) && !a.ACallback?
    ensures Step(s, a).js.closing && !Step(s, a).js.isOpen
  {
    hide Step;
    if OnDelivery(a) { DeliveryLeaves(s, a); } else { CallsLeave(s, a); }
  }

  lemma {:induction false} ClosedForGood(schedule: seq<Action>, more: seq<Action>)
    requires Run(schedule).js.closing && !Run(schedule).js.isOpen
    ensures Run(schedule + more).js.closing && !Run(schedule + more).js.isOpen
    decreases |more|
  {
    hide Run, Step;
    if more == [] {
      assert schedule + more == schedule;
    } else {
      var before, last := more[..|more| - 1], more[|more| - 1];
      ClosedForGood(schedule, before);
      assert schedule + more == schedule + before + [last];
      ProtocolTheorems.RunLast(schedule + before, last);
      NeverReopens(Run(schedule + before), last);
    }
  }
}
