/** What holds in every run of the life cycle, whatever the application does while it is called. */
module LifecycleTheorems {
  import opened Common
  import opened Lifecycle
  import opened LifecycleSafety

  // ---- Each callback at most once --------------------------------------------------------------------

  lemma {:induction false} IdsCount(n: nat, id: nat)
    ensures multiset(Ids(n))[id] == if id < n then 1 else 0
  {
    if n > 0 {
      IdsCount(n - 1, id);
      IdsSnoc(n - 1);
    }
  }

  /** Each registered callback runs at most once: it is run, lost to an exception, or still to be
    run, and only one of the three. */
  lemma {:induction false} CallbacksRunOnce(events: seq<Event>)
    ensures var s := Run(events);
            forall id: nat ::
              multiset(s.log.ran)[id] + multiset(s.log.dropped)[id] + multiset(Unrun(s))[id]
              == if id < s.log.registered then 1 else 0
  {
    hide Run, Inv;
    Safety(events);
    var s := Run(events);
    forall id: nat
      ensures multiset(s.log.ran)[id] + multiset(s.log.dropped)[id] + multiset(Unrun(s))[id]
              == if id < s.log.registered then 1 else 0
    {
      CountedOnce(s, id);
    }
  }

  lemma CountedOnce(s: State, id: nat)
    requires Inv(s)
    ensures multiset(s.log.ran)[id] + multiset(s.log.dropped)[id] + multiset(Unrun(s))[id]
            == if id < s.log.registered then 1 else 0
  {
    hide Ports, Frames, Closes, Requests, Unrun, Ids, Increasing;
    IdsCount(s.log.registered, id);
    assert (multiset(s.log.ran) + multiset(s.log.dropped) + multiset(Unrun(s)))[id] == multiset(Ids(s.log.registered))[id];
  }

  // ---- All callbacks -----------------------------------------------------------------------------------

  /** No method is waiting and no close is in progress. */
  predicate Quiescent(s: State) { s.frames == [] && !s.my.closing }

  /** The callbacks that the method on top has still to run. */
  function Remaining(s: State): seq<nat> { if s.frames == [] then [] else Top(s).Callbacks() }

  /** No listener or callback throws while the method that called it has callbacks left. */
  ghost predicate NothingLost(events: seq<Event>) {
    forall k :: 0 <= k < |events| && events[k].EThrow? ==> Remaining(Run(events[..k])) == []
  }

  lemma NothingLostSnoc(events: seq<Event>, e: Event)
    ensures NothingLost(events + [e]) <==> NothingLost(events) && (e.EThrow? ==> Remaining(Run(events)) == [])
  {
    hide Run, Remaining;
    var all, n := events + [e], |events|;
    assert all[..n] == events && all[n] == e;
    forall k | 0 <= k < n ensures all[..k] == events[..k] && all[k] == events[k] {}
    if NothingLost(all) {
      forall k | 0 <= k < n && events[k].EThrow? ensures Remaining(Run(events[..k])) == [] {
        assert all[k].EThrow? && Remaining(Run(all[..k])) == [];
      }
    }
  }

  lemma {:induction false} DroppedMeansLost(events: seq<Event>)
    ensures Run(events).log.dropped == [] <==> NothingLost(events)
  {
    hide Step, Remaining;
    if events != [] {
      var rest, e := events[..|events| - 1], events[|events| - 1];
      assert events == rest + [e];
      DroppedMeansLost(rest);
      hide NothingLost;
      NothingLostSnoc(rest, e);
      DroppedStep(Run(rest), e);
    }
  }

  lemma DroppedStep(s: State, e: Event)
    ensures Step(s, e).log.dropped == s.log.dropped + (if e.EThrow? then Remaining(s) else [])
  {
    hide FinishClose, Close, DestroyRest, Return, Read;
    assert s.log.dropped + [] == s.log.dropped;
    if Settles(e) {
      hide Step;
      SettledKeepsDropped(s, e);
      return;
    }
    match e
    case EReturn(start) => ReturnKeepsDropped(s, start);
    case EOnClose(q, reason) => PartsKeepDropped(s, q, false, reason, Granted);
    case EClose(callback) => PartsKeepDropped(s, 0, callback, None, Granted);
    case EDestroy => PartsKeepDropped(FailWaiting(s.(my := s.my.(destroyed := true))), 0, false, None, Granted);
    case ERead(start) => PartsKeepDropped(s, 0, false, None, start);
    case _ =>
  }

  lemma SettledKeepsDropped(s: State, e: Event)
    requires Settles(e)
    ensures Step(s, e).log.dropped == s.log.dropped
  {
    hide FinishClose, Settle, Close, ReadResolved, ReadRejected;
    match e
    case ECloseSettled(q, ok) => SettleKeepsDropped(s.(world := s.world.(closes := s.world.closes - multiset{q})), q, ok);
    case ECancelSettled(q, ok) => SettleKeepsDropped(s.(world := s.world.(cancels := s.world.cancels - multiset{q})), q, ok);
    case EOpenFailed =>
      if s.world.opening.Some? {
        PartsKeepDropped(FailWaiting(s.(my := s.my.(opening := false), world := s.world.(opening := None))),
                         s.world.opening.value, false, None, Granted);
      }
    case EReadResolved(_, _, _) => AnswerKeepsDropped(s, e);
    case EReadRejected(_, _, _) => AnswerKeepsDropped(s, e);
    case EWriteSettled(q, _, _) =>
      PartsKeepDropped(s.(world := s.world.(writes := s.world.writes - multiset{q})), 0, false, Some(0), Granted);
    case _ =>
  }

  lemma AnswerKeepsDropped(s: State, e: Event)
    requires e.EReadResolved? || e.EReadRejected?
    ensures Step(s, e).log.dropped == s.log.dropped
  {
    hide Read, ReadRefused;
    PartsKeepDropped(Forget(s, e.q), 0, false, None, e.start);
    if e.EReadRejected? { PartsKeepDropped(Forget(s, e.q), 0, false, None, Refused(e.canceled)); }
  }

  lemma PartsKeepDropped(s: State, n: nat, callback: bool, reason: Option<nat>, start: Start)
    ensures FinishClose(s, n).log.dropped == s.log.dropped
    ensures Close(s, callback, reason).log.dropped == s.log.dropped
    ensures DestroyRest(s).log.dropped == s.log.dropped
    ensures Read(s, start).log.dropped == s.log.dropped
    ensures start.Refused? ==> ReadRefused(s, start.canceled).log.dropped == s.log.dropped
  {
    ReadKeepsDropped(s, start);
    hide Read, ReadRefused;
  }

  lemma ReadKeepsDropped(s: State, start: Start)
    ensures Read(s, start).log.dropped == s.log.dropped
    ensures start.Refused? ==> ReadRefused(s, start.canceled).log.dropped == s.log.dropped
  {
  }

  lemma SettleKeepsDropped(s: State, q: nat, ok: bool)
    ensures Settle(s, q, ok).log.dropped == s.log.dropped
  {
  }

  lemma ReturnKeepsDropped(s: State, start: Start)
    ensures Return(s, start).log.dropped == s.log.dropped
  {
    hide FinishClose, DestroyRest, Resume, Read;
    if s.frames != [] {
      PartsKeepDropped(Pop(s), if Top(s).FailedOpen? then Top(s).attempt else 0, false, None, start);
      ResumeKeepsDropped(Pop(s), start);
    }
  }

  lemma ResumeKeepsDropped(s: State, start: Start)
    ensures Resume(s, start).log.dropped == s.log.dropped
  {
    hide Read;
    ReadKeepsDropped(s, start);
    ReadKeepsDropped(SendWaiting(s), start);
  }

  /** Once nothing is waiting or in progress, every registered callback has run if and only if no
    listener or callback threw while callbacks were left. */
  lemma {:induction false} AllCallbacksRun(events: seq<Event>)
    requires Quiescent(Run(events))
    ensures (forall id: nat :: id < Run(events).log.registered ==> id in Run(events).log.ran) <==> NothingLost(events)
  {
    hide Run, Inv, NothingLost;
    var s := Run(events);
    Safety(events);
    DroppedMeansLost(events);
    QuiescentFacts(s);
    forall id: nat ensures id < s.log.registered ==> (id in s.log.ran <==> id !in s.log.dropped) {
      CountedOnce(s, id);
    }
    if s.log.dropped != [] {
      var id := s.log.dropped[0];
      CountedOnce(s, id);
      assert id in s.log.dropped;
    }
  }

  lemma QuiescentFacts(s: State)
    requires Inv(s) && Quiescent(s)
    ensures Unrun(s) == []
  {
    hide Ports, Frames, Closes, Requests;
  }

  // ---- Order -------------------------------------------------------------------------------------------

  /** What an event does to the callbacks. */
  datatype Fate =
    | Stays                                                  // none is moved out of the line
    | Joins                                                  // a new one at the end of the line
    | Runs(before: seq<nat>, id: nat, after: seq<nat>)       // one leaves the line and runs
    | RunsAtOnce                                             // a new one runs without waiting
    | Loses(before: seq<nat>, gone: seq<nat>, after: seq<nat>)

  ghost predicate Follows(s: State, t: State, fate: Fate) {
    match fate
    case Stays => t.log.ran == s.log.ran && t.log.registered == s.log.registered && Unrun(t) == Unrun(s)
    case Joins =>
      t.log.ran == s.log.ran && t.log.registered == s.log.registered + 1 && Unrun(t) == Unrun(s) + [s.log.registered]
    case Runs(before, id, after) =>
      && t.log.ran == s.log.ran + [id] && t.log.registered == s.log.registered
      && Unrun(s) == before + [id] + after && Unrun(t) == before + after
    case RunsAtOnce =>
      && t.log.ran == s.log.ran + [s.log.registered] && t.log.registered == s.log.registered + 1
      && Unrun(t) == Unrun(s)
    case Loses(before, gone, after) =>
      && t.log.ran == s.log.ran && t.log.registered == s.log.registered
      && Unrun(s) == before + gone + after && Unrun(t) == before + after
  }

  function CloseFate(s: State, callback: bool): Fate {
    if callback && !s.my.closing && (IsOpen(s) || s.my.opening) then Joins else Stays
  }

  /** `_destroy` finds nothing to close. */
  predicate NothingToClose(s: State) { !s.my.closing && !IsOpen(s) && !s.my.opening }

  function DestroyFate(s: State): Fate { if NothingToClose(s) then RunsAtOnce else Joins }

  function FailFate(s: State, q: nat, ok: bool): Fate {
    if ok || s.my.port != Some(q) || q !in s.world.openPorts || s.my.closeCallbacks == [] then Stays
    else Runs(Waiting(s.frames), s.my.closeCallbacks[0], s.my.closeCallbacks[1..])
  }

  function FateOf(s: State, e: Event): Fate {
    match e
    case EClose(callback) => CloseFate(s, callback)
    case ECloseSettled(q, ok) => if s.frames == [] && q in s.world.closes then FailFate(s, q, ok) else Stays
    case ECancelSettled(q, ok) => if s.frames == [] && q in s.world.cancels then FailFate(s, q, ok) else Stays
    case EDestroy => if s.my.destroyed || s.my.waitingWrite.Some? then Stays else DestroyFate(s)
    case EReturn(_) =>
      if s.frames == [] then Stays
      else if Remaining(s) != [] then
        Runs(Waiting(Pop(s).frames), Remaining(s)[0], Remaining(s)[1..] + s.my.closeCallbacks)
      else if Top(s).Destroying? then DestroyFate(s)
      else Stays
    case EThrow => if s.frames == [] then Stays else Loses(Waiting(Pop(s).frames), Remaining(s), s.my.closeCallbacks)
    case _ => Stays
  }

  lemma FinishFollows(s: State, n: nat)
    ensures Follows(s, FinishClose(s, n), Stays)
  {
    WaitingPush(s.frames, Finishing(s.my.closeCallbacks));
    hide Waiting;
    assert (Waiting(s.frames) + s.my.closeCallbacks) + [] == Waiting(s.frames) + s.my.closeCallbacks;
  }

  lemma CloseFollows(s: State, callback: bool, reason: Option<nat>)
    ensures Follows(s, Close(s, callback, reason), CloseFate(s, callback))
  {
    hide Waiting;
    var last := [s.log.registered];
    assert s.my.closeCallbacks + [] == s.my.closeCallbacks;
    assert Waiting(s.frames) + (s.my.closeCallbacks + last) == (Waiting(s.frames) + s.my.closeCallbacks) + last;
  }

  lemma DestroyFollows(s: State)
    ensures Follows(s, DestroyRest(s), DestroyFate(s))
  {
    hide Waiting, Close;
    CloseFollows(s, true, None);
    var last := [s.log.registered];
    assert Waiting(s.frames) + (s.my.closeCallbacks + last) == (Waiting(s.frames) + s.my.closeCallbacks) + last;
  }

  lemma PushFollows(s: State, f: Frame)
    requires f.Callbacks() == []
    ensures Follows(s, Push(s, f), Stays)
  {
    WaitingPush(s.frames, f);
    hide Waiting;
    assert Waiting(s.frames) + [] == Waiting(s.frames);
  }

  lemma ReadFollows(s: State, start: Start)
    ensures Follows(s, Read(s, start), Stays)
    ensures start.Refused? ==> Follows(s, ReadRefused(s, start.canceled), Stays)
  {
    hide Waiting, Close;
    var t := s.(my := s.my.(readPort := if s.my.readPort == s.my.port then None else s.my.readPort));
    CloseFollows(t, false, Some(0));
    CloseFollows(Asked(t.(my := t.my.(readRequested := true))), false, Some(0));
  }

  lemma ResumeFollows(s: State, start: Start)
    ensures Follows(s, Resume(s, start), Stays)
  {
    hide Waiting, Read;
    ReadFollows(s, start);
    ReadFollows(SendWaiting(s), start);
  }

  lemma SettleFollows(s: State, q: nat, ok: bool)
    ensures Follows(s, Settle(s, q, ok), FailFate(s, q, ok))
  {
    hide Waiting, FinishClose, Unrun;
    FinishFollows(s, q);
    if s.my.port == Some(q) && q in s.world.openPorts { RefusedUnrun(s, q); }
  }

  lemma NextFollows(s: State, next: Frame)
    requires s.frames != [] && Remaining(s) != [] && next.Callbacks() == Remaining(s)[1..]
    ensures Follows(s, Next(s, next),
                    Runs(Waiting(Pop(s).frames), Remaining(s)[0], Remaining(s)[1..] + s.my.closeCallbacks))
  {
    hide Waiting, Unrun;
    NextUnrun(s, next);
  }

  lemma PopFollows(s: State)
    requires s.frames != [] && Remaining(s) == []
    ensures Follows(s, Pop(s), Stays)
  {
    WaitingPop(s.frames);
    hide Waiting;
    assert Waiting(Pop(s).frames) + [] == Waiting(Pop(s).frames);
  }

  lemma ReturnFollows(s: State, start: Start)
    requires s.frames != []
    ensures Follows(s, Return(s, start), FateOf(s, EReturn(start)))
  {
    hide Waiting, Unrun, Resume, FinishClose, DestroyRest;
    if Remaining(s) != [] {
      NextFollows(s, if Top(s).Finishing? then Finishing(Remaining(s)[1..]) else Failing(Remaining(s)[1..]));
    } else {
      PopFollows(s);
      match Top(s)
      case Finishing(_) =>
      case Failing(_) => ResumeFollows(Pop(s), start);
      case Announcing => ResumeFollows(Pop(s), start);
      case Cancelling(n) => CancelFollows(Pop(s), n);
      case FailedOpen(n) => FinishFollows(Pop(s), n);
      case Destroying => DestroyFollows(Pop(s));
    }
  }

  lemma CancelFollows(s: State, n: nat)
    ensures Follows(s, CancelPort(s, n), Stays)
  {
  }

  lemma OpenedFollows(s: State, live: bool)
    ensures Follows(s, Opened(s, live), Stays)
  {
    hide Waiting;
    if s.frames == [] && s.world.opening.Some? {
      var n, t := s.world.opening.value, Attached(s, live);
      assert Unrun(t) == Unrun(s);
      PushFollows(t, Announcing);
      PushFollows(FailWaiting(t), Cancelling(n));
      CancelFollows(t, n);
    }
  }

  lemma OpenFailedFollows(s: State)
    ensures Follows(s, OpenFailed(s), Stays)
  {
    hide Waiting, FinishClose;
    if s.frames == [] && s.world.opening.Some? {
      var n := s.world.opening.value;
      var t := FailWaiting(s.(my := s.my.(opening := false), world := s.world.(opening := None)));
      assert Unrun(t) == Unrun(s);
      PushFollows(t, FailedOpen(n));
      FinishFollows(t, n);
    }
  }

  lemma DestroyEventFollows(s: State)
    ensures Follows(s, Destroy(s), FateOf(s, EDestroy))
  {
    hide Waiting, DestroyRest;
    var t := FailWaiting(s.(my := s.my.(destroyed := true)));
    assert Unrun(t) == Unrun(s);
    PushFollows(t, Destroying);
    DestroyFollows(t);
  }

  lemma ThrowFollows(s: State)
    ensures Follows(s, Throw(s), FateOf(s, EThrow))
  {
    if s.frames != [] { WaitingPop(s.frames); }
    hide Waiting;
  }

  lemma SettledFollows(s: State, e: Event)
    requires e.ECloseSettled? || e.ECancelSettled?
    ensures Follows(s, Step(s, e), FateOf(s, e))
  {
    hide Waiting, Settle, Unrun;
    var t := if e.ECloseSettled? then s.(world := s.world.(closes := s.world.closes - multiset{e.q}))
             else s.(world := s.world.(cancels := s.world.cancels - multiset{e.q}));
    assert Unrun(t) == Unrun(s) by { SameUnrun(s, t); }
    SettleFollows(t, e.q, e.ok);
  }

  lemma SameUnrun(s: State, t: State)
    requires t.frames == s.frames && t.my.closeCallbacks == s.my.closeCallbacks
    ensures Unrun(t) == Unrun(s)
  {
  }

  lemma ReadSettledFollows(s: State, e: Event)
    requires e.EReadResolved? || e.EReadRejected?
    ensures Follows(s, Step(s, e), Stays)
  {
    hide Waiting, Read, ReadRefused;
    var t := Forget(s, e.q);
    assert Unrun(t) == Unrun(s);
    ReadFollows(t, e.start);
    if e.EReadRejected? { ReadFollows(t, Refused(e.canceled)); }
  }

  lemma OtherFollows(s: State, e: Event)
    requires e.EOpen? || e.EOnData? || e.EWrite? || e.EPortChanges?
    ensures Follows(s, Step(s, e), Stays)
  {
    hide Waiting;
  }

  lemma EventFollows(s: State, e: Event)
    ensures Follows(s, Step(s, e), FateOf(s, e))
  {
    hide Follows, Waiting, Opened, OpenFailed, CloseSettled, CancelSettled, Destroy, Read, ReadResolved, ReadRejected;
    hide Return, Throw, Close, FinishClose, OnData, Write, PortChanges, Open;
    match e
    case EOpened(live) => OpenedFollows(s, live);
    case EOpenFailed => OpenFailedFollows(s);
    case EClose(callback) => CloseFollows(s, callback, None);
    case ECloseSettled(_, _) => SettledFollows(s, e);
    case ECancelSettled(_, _) => SettledFollows(s, e);
    case EOnClose(q, reason) =>
      CloseFollows(s, false, reason);
      FinishFollows(s, q);
      NothingFollows(s);
    case EDestroy => DestroyEventFollows(s);
    case ERead(start) => ReadFollows(s, start);
    case EReadResolved(_, _, _) => ReadSettledFollows(s, e);
    case EReadRejected(_, _, _) => ReadSettledFollows(s, e);
    case EWriteSettled(q, ok, canceled) => WriteSettledFollows(s, q, ok, canceled);
    case EReturn(start) => if s.frames != [] { ReturnFollows(s, start); } else { NothingReturns(s, start); }
    case EThrow => ThrowFollows(s);
    case _ => OtherFollows(s, e);
  }

  lemma NothingFollows(s: State)
    ensures Follows(s, s, Stays)
  {
  }

  lemma NothingReturns(s: State, start: Start)
    requires s.frames == []
    ensures Follows(s, Return(s, start), Stays)
  {
  }

  lemma WriteSettledFollows(s: State, q: nat, ok: bool, canceled: bool)
    ensures Follows(s, WriteSettled(s, q, ok, canceled), Stays)
  {
    hide Waiting, Close;
    var t := s.(world := s.world.(writes := s.world.writes - multiset{q}));
    assert Unrun(t) == Unrun(s);
    CloseFollows(t, false, Some(0));
  }

  /** A callback runs while an older one is still waiting: the application destroys the stream from
    a listener or callback when nothing is left to close, or a close ends inside another one. */
  predicate Overtakes(s: State, e: Event) {
    || (e.EDestroy? && !s.my.destroyed && s.my.waitingWrite.None? && NothingToClose(s) && Waiting(s.frames) != [])
    || (e.EReturn? && s.frames != [] && Top(s).Destroying? && NothingToClose(s) && Waiting(s.frames) != [])
    || (e.EReturn? && Remaining(s) != [] && Waiting(Pop(s).frames) != [])
  }

  ghost predicate NoOvertaking(events: seq<Event>) {
    forall k :: 0 <= k < |events| ==> !Overtakes(Run(events[..k]), events[k])
  }

  lemma OvertakesMeans(s: State, e: Event)
    requires Inv(s)
    ensures Overtakes(s, e) <==> var fate := FateOf(s, e);
                                 (fate.Runs? && fate.before != []) || (fate.RunsAtOnce? && Unrun(s) != [])
  {
    hide Inv, Waiting;
    LineIsWaiting(s);
  }

  lemma LineIsWaiting(s: State)
    requires Inv(s)
    ensures !s.my.closing ==> Unrun(s) == Waiting(s.frames)
    ensures s.frames == [] ==> Waiting(s.frames) == []
  {
    hide Ports, Frames, Closes, Requests, Increasing;
    CallbacksEmpty(s);
    assert Waiting(s.frames) + [] == Waiting(s.frames);
  }

  lemma OrderStep(s: State, t: State, fate: Fate)
    requires Follows(s, t, fate) && Increasing(s.log.ran + Unrun(s), s.log.registered)
    requires fate.Runs? ==> fate.before == []
    requires fate.RunsAtOnce? ==> Unrun(s) == []
    ensures Increasing(t.log.ran + Unrun(t), t.log.registered)
  {
    hide Increasing, Unrun;
    var ran, line, n := s.log.ran, Unrun(s), s.log.registered;
    match fate
    case Stays =>
    case Joins =>
      IncreasingSnoc(ran + line, n, n, n + 1);
      assert ran + (line + [n]) == (ran + line) + [n];
    case Runs(before, id, after) =>
      assert ran + ([] + [id] + after) == (ran + [id]) + ([] + after);
    case RunsAtOnce =>
      IncreasingSnoc(ran + line, n, n, n + 1);
      assert (ran + [n]) + line == (ran + line) + [n];
    case Loses(before, gone, after) =>
      assert ran + (before + gone + after) == (ran + before) + gone + after;
      IncreasingWithout(ran + before, gone, after, n);
      assert (ran + before) + after == ran + (before + after);
  }

  lemma {:induction false} OrderHolds(events: seq<Event>)
    requires NoOvertaking(events)
    ensures var s := Run(events); Increasing(s.log.ran + Unrun(s), s.log.registered)
  {
    hide Step, Overtakes, Inv, Unrun, FateOf, Follows, NoOvertaking;
    if events == [] {
      assert Unrun(Init()) == [] by { InitUnrun(); }
    } else {
      var rest, e := events[..|events| - 1], events[|events| - 1];
      assert events == rest + [e];
      NoOvertakingLast(rest, e);
      OrderHolds(rest);
      Safety(rest);
      EventFollows(Run(rest), e);
      OvertakesMeans(Run(rest), e);
      OrderStep(Run(rest), Run(events), FateOf(Run(rest), e));
    }
  }

  lemma NoOvertakingLast(events: seq<Event>, e: Event)
    requires NoOvertaking(events + [e])
    ensures NoOvertaking(events) && !Overtakes(Run(events), e)
  {
    hide Run, Overtakes;
    var all, n := events + [e], |events|;
    assert all[..n] == events && all[n] == e;
    forall k | 0 <= k < n ensures !Overtakes(Run(events[..k]), events[k]) {
      assert all[..k] == events[..k] && all[k] == events[k];
    }
  }

  lemma InitUnrun()
    ensures Unrun(Init()) == []
  {
  }

  lemma {:induction false} RanGrows(events: seq<Event>, k: nat)
    requires k <= |events|
    ensures Run(events[..k]).log.ran <= Run(events).log.ran
    ensures Run(events[..k]).log.registered <= Run(events).log.registered
    decreases |events|
  {
    hide Step, FateOf, Unrun;
    if k == |events| {
      assert events[..k] == events;
    } else {
      var rest, e := events[..|events| - 1], events[|events| - 1];
      assert rest[..k] == events[..k];
      RanGrows(rest, k);
      EventFollows(Run(rest), e);
    }
  }

  /** An overtaken callback that runs later runs after a younger one. */
  lemma OvertakingShows(events: seq<Event>, k: nat)
    requires k < |events| && Overtakes(Run(events[..k]), events[k])
    requires Quiescent(Run(events)) && NothingLost(events)
    ensures !Increasing(Run(events).log.ran, Run(events).log.registered)
  {
    hide Run, Overtakes, Inv, NothingLost, FateOf, Step, Increasing, Waiting;
    var s, t, u := Run(events[..k]), Run(events[..k + 1]), Run(events);
    assert events[..k + 1] == events[..k] + [events[k]];
    RunSnoc(events[..k], events[k]);
    Safety(events[..k]);
    Safety(events[..k + 1]);
    Safety(events);
    OvertakesMeans(s, events[k]);
    EventFollows(s, events[k]);
    RanGrows(events, k + 1);
    DroppedMeansLost(events);
    QuiescentFacts(u);
    var w := Unrun(s)[0];
    Overtaken(s, t, FateOf(s, events[k]));
    OutOfOrder(t, u, w);
  }

  /** The oldest callback in line has been passed by the one that has just run. */
  lemma Overtaken(s: State, t: State, fate: Fate)
    requires Inv(s) && Follows(s, t, fate)
    requires (fate.Runs? && fate.before != []) || (fate.RunsAtOnce? && Unrun(s) != [])
    ensures Unrun(s) != [] && t.log.ran != [] && Unrun(s)[0] in Unrun(t) && Unrun(s)[0] < t.log.ran[|t.log.ran| - 1]
  {
    hide Ports, Frames, Closes, Requests, Unrun, Ids;
    var line := Unrun(s);
    assert Increasing(line, s.log.registered);
    if fate.Runs? {
      assert line[|fate.before|] == fate.id && line[0] == fate.before[0];
      assert Unrun(t)[0] == fate.before[0];
    } else {
      assert line[0] < s.log.registered;
    }
  }

  lemma OutOfOrder(t: State, u: State, w: nat)
    requires Inv(t) && Inv(u) && t.log.ran <= u.log.ran && t.log.ran != [] && w in Unrun(t)
    requires w < t.log.ran[|t.log.ran| - 1] && u.log.dropped == [] && Unrun(u) == []
    requires t.log.registered <= u.log.registered
    ensures !Increasing(u.log.ran, u.log.registered)
  {
    hide Inv, Unrun;
    CountedOnce(t, w);
    CountedOnce(u, w);
    var n := |t.log.ran|;
    assert u.log.ran == t.log.ran + u.log.ran[n..];
    assert multiset(u.log.ran) == multiset(t.log.ran) + multiset(u.log.ran[n..]);
    assert w in u.log.ran[n..];
    var j :| 0 <= j < |u.log.ran| - n && u.log.ran[n..][j] == w;
    assert u.log.ran[n + j] == w && u.log.ran[n - 1] > w;
  }

  /** Callbacks run in the order of registration as long as none overtakes an older one; and when
    nothing is waiting, in progress or lost, only then. */
  lemma {:induction false} CallbacksRunInOrder(events: seq<Event>)
    ensures var s := Run(events);
            && (NoOvertaking(events) ==> Increasing(s.log.ran, s.log.registered))
            && (Quiescent(s) && NothingLost(events) ==>
                  (Increasing(s.log.ran, s.log.registered) <==> NoOvertaking(events)))
  {
    hide Run, Overtakes, NothingLost, Quiescent;
    var s := Run(events);
    if NoOvertaking(events) {
      OrderHolds(events);
      IncreasingWithout(s.log.ran, Unrun(s), [], s.log.registered);
      assert s.log.ran + Unrun(s) + [] == s.log.ran + Unrun(s) && s.log.ran + [] == s.log.ran;
    } else if Quiescent(s) && NothingLost(events) {
      var k :| 0 <= k < |events| && Overtakes(Run(events[..k]), events[k]);
      OvertakingShows(events, k);
    }
  }

  /** The application does not call the stream from its listeners and callbacks. */
  ghost predicate NoReentry(events: seq<Event>) {
    forall k :: 0 <= k < |events| && Run(events[..k]).frames != [] ==> events[k].EReturn? || events[k].EThrow?
  }

  lemma NoReentryLast(events: seq<Event>, e: Event)
    requires NoReentry(events + [e])
    ensures NoReentry(events) && (Run(events).frames != [] ==> e.EReturn? || e.EThrow?)
  {
    hide Run;
    var all, n := events + [e], |events|;
    assert all[..n] == events && all[n] == e;
    forall k | 0 <= k < n && Run(events[..k]).frames != [] ensures events[k].EReturn? || events[k].EThrow? {
      assert all[..k] == events[..k] && all[k] == events[k];
    }
  }

  lemma NoOvertakingSnoc(events: seq<Event>, e: Event)
    requires NoOvertaking(events) && !Overtakes(Run(events), e)
    ensures NoOvertaking(events + [e])
  {
    hide Run, Overtakes;
    var all, n := events + [e], |events|;
    forall k | 0 <= k < |all| ensures !Overtakes(Run(all[..k]), all[k]) {
      if k < n { assert all[..k] == events[..k] && all[k] == events[k]; } else { assert all[..n] == events && all[n] == e; }
    }
  }

  /** Then no callback overtakes another. */
  lemma {:induction false} NoReentryKeepsOrder(events: seq<Event>)
    requires NoReentry(events)
    ensures |Run(events).frames| <= 1 && NoOvertaking(events)
  {
    hide Step, Overtakes, NoReentry, NoOvertaking;
    if events == [] {
      NothingOvertakes();
    } else {
      var rest, e := events[..|events| - 1], events[|events| - 1];
      assert events == rest + [e];
      NoReentryLast(rest, e);
      NoReentryKeepsOrder(rest);
      FlatStep(Run(rest), e);
      NoOvertakingSnoc(rest, e);
    }
  }

  lemma NothingOvertakes()
    ensures NoOvertaking([])
  {
  }

  lemma FlatStep(s: State, e: Event)
    requires |s.frames| <= 1 && (s.frames != [] ==> e.EReturn? || e.EThrow?)
    ensures |Step(s, e).frames| <= 1 && !Overtakes(s, e)
  {
    hide Close, Read, ReadRefused, Waiting;
    FlatWaiting(s);
    if e.ERead? { ReadKeepsFrames(s, e.start); }
    if e.EReturn? && s.frames != [] { ResumeKeepsFrames(Pop(s), e.start); }
    if e.EReadResolved? || e.EReadRejected? {
      ReadKeepsFrames(Forget(s, e.q), e.start);
      if e.EReadRejected? { ReadKeepsFrames(Forget(s, e.q), Refused(e.canceled)); }
    }
    if e.EClose? { CloseKeepsFrames(s, e.callback, None); }
    if e.EOnClose? { CloseKeepsFrames(s, false, e.reason); }
    if e.EDestroy? { CloseKeepsFrames(FailWaiting(s.(my := s.my.(destroyed := true))), true, None); }
    if e.EReturn? && s.frames != [] { CloseKeepsFrames(Pop(s), true, None); }
    if e.EWriteSettled? {
      CloseKeepsFrames(s.(world := s.world.(writes := s.world.writes - multiset{e.q})), false, Some(0));
    }
  }

  lemma FlatWaiting(s: State)
    requires |s.frames| <= 1
    ensures s.frames == [] ==> Waiting(s.frames) == []
    ensures s.frames != [] ==> Waiting(Pop(s).frames) == [] && (Top(s).Destroying? ==> Waiting(s.frames) == [])
  {
    if s.frames != [] { WaitingPop(s.frames); }
  }

  lemma CloseKeepsFrames(s: State, callback: bool, reason: Option<nat>)
    ensures Close(s, callback, reason).frames == s.frames
  {
  }

  lemma ReadKeepsFrames(s: State, start: Start)
    ensures Read(s, start).frames == s.frames
    ensures start.Refused? ==> ReadRefused(s, start.canceled).frames == s.frames
  {
  }

  lemma ResumeKeepsFrames(s: State, start: Start)
    ensures Resume(s, start).frames == s.frames
  {
    hide Read;
    ReadKeepsFrames(s, start);
    ReadKeepsFrames(SendWaiting(s), start);
  }
}
