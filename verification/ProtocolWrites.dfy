/** What it means for a write that its request has been settled. */
module ProtocolWrites {
  import opened Protocol
  import opened ProtocolInvariant
  import opened ProtocolSafety

  /** Every write that the reactor has still to finish belongs to an unsettled request. */
  ghost predicate Known(s: State) {
    && (forall c :: c in s.rx.commands && c.Write? ==> c.id in s.log.unsettled)
    && (forall c :: c in s.channel && c.Write? ==> c.id in s.log.unsettled)
  }

  lemma {:induction false} WritesAreKnown(schedule: seq<Action>)
    ensures Known(Run(schedule))
  {
    hide Step, Inv, Known;
    if schedule == [] {
      InitKnown();
    } else {
      var rest := schedule[..|schedule| - 1];
      WritesAreKnown(rest);
      Safety(rest);
      KnownStep(Run(rest), schedule[|rest|]);
    }
  }

  lemma InitKnown()
    ensures Known(Init())
  {
  }

  /** The parts of a state that matter here. */
  ghost predicate SameCommands(s: State, t: State) {
    t.rx.commands == s.rx.commands && t.channel == s.channel && t.log.unsettled == s.log.unsettled
  }

  lemma KnownStep(s: State, a: Action)
    requires Inv(s) && Known(s)
    ensures Known(Step(s, a))
  {
    hide Inv, Known, SameCommands;
    match a
    case ASend => KnownSend(s);
    case ACallback => KnownCallback(s);
    case RReceive => KnownReceive(s);
    case RComplete => KnownComplete(s);
    case _ =>
      OtherCommands(s, a);
      KnownSame(s, Step(s, a));
  }

  lemma KnownSame(s: State, t: State)
    requires Known(s) && SameCommands(s, t)
    ensures Known(t)
  {
  }

  lemma OtherCommands(s: State, a: Action)
    requires !a.ASend? && !a.ACallback? && !a.RReceive? && !a.RComplete?
    ensures SameCommands(s, Step(s, a))
  {
    hide Step, SameCommands;
    if a.ROpen? || a.RPublishDone? || a.RWrite? || a.RRead? || a.RBurstLock? || a.RBurstRead? || a.RBurstEnd?
       || a.RPublish? || a.RFail? || a.RRelease? || a.RClose? {
      ReactorCommands(s, a);
    } else {
      BindingCommands(s, a);
    }
  }

  lemma ReactorCommands(s: State, a: Action)
    requires a.ROpen? || a.RPublishDone? || a.RWrite? || a.RRead? || a.RBurstLock? || a.RBurstRead? || a.RBurstEnd?
             || a.RPublish? || a.RFail? || a.RRelease? || a.RClose?
    ensures SameCommands(s, Step(s, a))
  {
    hide NextSize, Followers;
  }

  lemma BindingCommands(s: State, a: Action)
    requires a.AWrite? || a.AControl? || a.ARead? || a.AStartReading? || a.ALoad? || a.ATryWrite? || a.AEnqueue?
             || a.AMicrotask? || a.AListenerReturns? || a.AListenerThrows? || a.AReadSettled? || a.AClose? || a.ACancelOpen?
    ensures SameCommands(s, Step(s, a))
  {
    hide Tag, Wanted;
  }

  lemma KnownSend(s: State)
    requires Known(s)
    ensures Known(JsSend(s))
  {
  }

  lemma KnownReceive(s: State)
    requires Known(s)
    ensures Known(RxReceive(s))
  {
  }

  lemma KnownComplete(s: State)
    requires Known(s)
    ensures Known(RxComplete(s))
  {
  }

  lemma KnownCallback(s: State)
    requires Inv(s) && Known(s)
    ensures Known(JsCallback(s))
  {
    hide Inv, Finish, OnRead;
    if EventLoop(s) && s.callbacks != [] && s.callbacks[0].Done? { CompletedIsGone(s); }
  }

  /** A request that has been completed is no longer with the reactor. */
  lemma CompletedIsGone(s: State)
    requires Inv(s) && s.callbacks != [] && s.callbacks[0].Done?
    ensures forall c :: (c in s.rx.commands || c in s.channel) && c.Ordered() ==> c.id != s.callbacks[0].id
  {
    hide InvReactive, InvExclusive, InvQuiet, InvReservations, InvWrites, InvReads, InvQueued, InvCredits, Life;
    hide Collect, ReadIds, Keys;
    var id := s.callbacks[0].id;
    LifeFacts(s);
    EventPop(s.callbacks);
    var after := DoneIds(s.callbacks[1..]) + CompletedIds(s.rx.phase);
    var ids := OrderedIds(s.rx.commands) + OrderedIds(s.channel);
    assert Outstanding(s) == [id] + after + ids;
    FirstIsUnique(id, after, ids, Keys(s.js.pending, true));
    forall c | (c in s.rx.commands || c in s.channel) && c.Ordered() ensures c.id != id {
      if c in s.rx.commands { IdOfMember(s.rx.commands, c); } else { IdOfMember(s.channel, c); }
    }
  }

  lemma FirstIsUnique(id: nat, after: seq<nat>, ids: seq<nat>, keys: set<nat>)
    requires multiset([id] + after + ids) == multiset(keys)
    ensures id !in ids
  {
    assert multiset([id] + after + ids) == multiset{id} + multiset(after) + multiset(ids);
    assert multiset(keys)[id] <= 1;
  }

  lemma {:induction false} IdOfMember(cs: seq<Command>, c: Command)
    requires c in cs && c.Ordered()
    ensures c.id in OrderedIds(cs)
  {
    CommandPop(cs);
    if c != cs[0] { IdOfMember(cs[1..], c); }
  }

  /** The answer to a read carries the id of a read. */
  lemma {:induction false} ReadEventsAreReads(schedule: seq<Action>)
    ensures var s := Run(schedule);
            s.callbacks != [] && (s.callbacks[0].ReadDone? || s.callbacks[0].ReadFailed?) ==>
              s.callbacks[0].id in s.js.pending && !s.js.pending[s.callbacks[0].id]
  {
    hide Run, Inv;
    Safety(schedule);
    var s := Run(schedule);
    if s.callbacks != [] && (s.callbacks[0].ReadDone? || s.callbacks[0].ReadFailed?) { ReadEventIsRead(s); }
  }

  lemma ReadEventIsRead(s: State)
    requires Inv(s) && s.callbacks != [] && (s.callbacks[0].ReadDone? || s.callbacks[0].ReadFailed?)
    ensures s.callbacks[0].id in Keys(s.js.pending, false)
  {
    hide InvReactive, InvExclusive, InvQuiet, InvReservations, InvWrites, InvReads, InvQueued, InvCredits, Life;
    hide Collect, Outstanding;
    LifeFacts(s);
    PopIds(s);
    var id, keys := s.callbacks[0].id, Keys(s.js.pending, false);
    assert ReadIds(s)[0] == id;
    assert id in multiset(ReadIds(s));
    assert id in multiset(keys);
  }

  /** Once every write that was queued has been settled and nothing has been rejected, the device has
    taken every submitted byte, in order, whatever else is still queued. */
  lemma {:induction false} SettledWritesAreTaken(schedule: seq<Action>)
    requires var s := Run(schedule); s.log.unsettled == {} && s.call == NoCall && s.log.gap.None?
    ensures var log := Run(schedule).log; log.accepted == Tag(log.attempted, 0)
  {
    hide Run, Inv, Known;
    Safety(schedule);
    WritesAreKnown(schedule);
    NothingLeft(Run(schedule));
  }

  lemma NothingLeft(s: State)
    requires Inv(s) && Known(s) && s.log.unsettled == {} && s.call == NoCall && s.log.gap.None?
    ensures s.log.accepted == Tag(s.log.attempted, 0)
  {
    hide InvLife, InvExclusive, InvQuiet, InvReservations, InvRequests, InvReads, InvQueued, InvCredits, Cells;
    NoWriteNoCells(s.rx.commands);
    NoWriteNoCells(s.channel);
    assert Pipeline(s) == [];
  }

  lemma {:induction false} NoWriteNoCells(cs: seq<Command>)
    requires forall c :: c in cs ==> !c.Write?
    ensures Cells(cs) == []
  {
    if cs != [] { NoWriteNoCells(cs[1..]); }
  }
}
