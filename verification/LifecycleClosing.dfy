/** How closes end, and what becomes of an opening that is cancelled. */
module LifecycleClosing {
  import opened Common
  import opened Lifecycle
  import opened LifecycleSafety

  // ---- Connections -------------------------------------------------------------------------------------

  /** Each attempt or connection emits 'close' at most once, never before an earlier one, and neither
    the current one nor the one being opened has emitted it. */
  lemma {:induction false} OneCloseEach(events: seq<Event>)
    ensures var s := Run(events);
            && (forall i, j :: 0 <= i < j < |s.log.closed| ==> s.log.closed[i] < s.log.closed[j])
            && (s.my.port.Some? ==> s.my.port.value !in s.log.closed)
            && (s.my.opening ==> s.world.opening.Some? && s.world.opening.value !in s.log.closed)
  {
    hide Run, Inv;
    Safety(events);
    ClosedBefore(Run(events));
  }

  lemma ClosedBefore(s: State)
    requires Inv(s)
    ensures forall i, j :: 0 <= i < j < |s.log.closed| ==> s.log.closed[i] < s.log.closed[j]
    ensures s.my.port.Some? ==> s.my.port.value !in s.log.closed
    ensures s.my.opening ==> s.world.opening.Some? && s.world.opening.value !in s.log.closed
  {
    hide Callbacks, Requests;
  }

  /** At most one read request per connection is outstanding, for the current one exactly while
    `_readPort` names it. */
  lemma {:induction false} OneReadEach(events: seq<Event>)
    ensures var s := Run(events);
            && (forall q :: s.world.requests[q] <= 1)
            && (s.my.port.Some? && s.my.readPort != s.my.port ==> s.my.port.value !in s.world.requests)
  {
    Safety(events);
  }

  /** Data comes from the current open connection, which has not emitted 'close'. */
  lemma {:induction false} DataIsCurrent(events: seq<Event>, e: Event)
    ensures var s, t := Run(events), Run(events + [e]);
            t.log.pushed != s.log.pushed ==>
              && IsOpen(s) && s.my.port.value !in s.log.closed && !t.my.readRequested
              && exists data :: t.log.pushed == s.log.pushed + [(s.my.port.value, data)]
  {
    hide Inv, Run, Step;
    OneCloseEach(events);
    RunSnoc(events, e);
    PushIsCurrent(Run(events), e);
  }

  lemma PushIsCurrent(s: State, e: Event)
    ensures var t := Step(s, e);
            t.log.pushed != s.log.pushed ==>
              && IsOpen(s) && !t.my.readRequested && exists data :: t.log.pushed == s.log.pushed + [(s.my.port.value, data)]
  {
    hide FinishClose, Close, DestroyRest, Read, Return;
    if Settles(e) {
      hide Step;
      SettledPushes(s, e);
      return;
    }
    match e
    case EReturn(start) => ReturnPushesNothing(s, start);
    case EOnClose(q, reason) => PartsPushNothing(s, q, false, reason, Granted);
    case EClose(callback) => PartsPushNothing(s, 0, callback, None, Granted);
    case EDestroy => PartsPushNothing(FailWaiting(s.(my := s.my.(destroyed := true))), 0, false, None, Granted);
    case ERead(start) => PartsPushNothing(s, 0, false, None, start);
    case _ =>
  }

  lemma SettledPushes(s: State, e: Event)
    requires Settles(e)
    ensures var t := Step(s, e);
            t.log.pushed != s.log.pushed ==>
              && IsOpen(s) && !t.my.readRequested && exists data :: t.log.pushed == s.log.pushed + [(s.my.port.value, data)]
  {
    hide FinishClose, Settle, Close, ReadRefused, Read, ReadResolved;
    match e
    case ECloseSettled(q, ok) => SettlePushesNothing(s.(world := s.world.(closes := s.world.closes - multiset{q})), q, ok);
    case ECancelSettled(q, ok) => SettlePushesNothing(s.(world := s.world.(cancels := s.world.cancels - multiset{q})), q, ok);
    case EOpenFailed =>
      if s.world.opening.Some? {
        PartsPushNothing(FailWaiting(s.(my := s.my.(opening := false), world := s.world.(opening := None))),
                         s.world.opening.value, false, None, Granted);
      }
    case EReadResolved(q, data, start) => ResolvedPushes(s, q, data, start);
    case EReadRejected(q, canceled, start) =>
      PartsPushNothing(Forget(s, q), 0, false, None, start);
      PartsPushNothing(Forget(s, q), 0, false, None, Refused(canceled));
    case EWriteSettled(q, _, _) =>
      PartsPushNothing(s.(world := s.world.(writes := s.world.writes - multiset{q})), 0, false, Some(0), Granted);
    case _ =>
  }

  lemma ResolvedPushes(s: State, q: nat, data: Bytes, start: Start)
    ensures var t := ReadResolved(s, q, data, start);
            t.log.pushed != s.log.pushed ==>
              IsOpen(s) && !t.my.readRequested && t.log.pushed == s.log.pushed + [(s.my.port.value, data)]
  {
    hide Read;
    PartsPushNothing(Forget(s, q), 0, false, None, start);
  }

  lemma PartsPushNothing(s: State, n: nat, callback: bool, reason: Option<nat>, start: Start)
    ensures FinishClose(s, n).log.pushed == s.log.pushed
    ensures Close(s, callback, reason).log.pushed == s.log.pushed
    ensures DestroyRest(s).log.pushed == s.log.pushed
    ensures Read(s, start).log.pushed == s.log.pushed
    ensures start.Refused? ==> ReadRefused(s, start.canceled).log.pushed == s.log.pushed
  {
    ReadPushesNothing(s, start);
    hide Read, ReadRefused;
  }

  lemma ReadPushesNothing(s: State, start: Start)
    ensures Read(s, start).log.pushed == s.log.pushed
    ensures start.Refused? ==> ReadRefused(s, start.canceled).log.pushed == s.log.pushed
  {
  }

  lemma SettlePushesNothing(s: State, q: nat, ok: bool)
    ensures Settle(s, q, ok).log.pushed == s.log.pushed
  {
  }

  lemma ReturnPushesNothing(s: State, start: Start)
    ensures Return(s, start).log.pushed == s.log.pushed
  {
    hide FinishClose, DestroyRest, Resume, Read;
    if s.frames != [] {
      PartsPushNothing(Pop(s), if Top(s).FailedOpen? then Top(s).attempt else 0, false, None, start);
      ResumePushesNothing(Pop(s), start);
    }
  }

  lemma ResumePushesNothing(s: State, start: Start)
    ensures Resume(s, start).log.pushed == s.log.pushed
  {
    hide Read;
    ReadPushesNothing(s, start);
    ReadPushesNothing(SendWaiting(s), start);
  }

  predicate CleanClose(s: State, t: State) {
    t.log.closed != s.log.closed ==>
      && t.my.port.None? && !t.my.closing && t.my.readPort.None? && t.my.readRequested
      && t.my.closeCallbacks == [] && t.my.closeError.None?
      && t.frames != [] && Top(t) == Finishing(s.my.closeCallbacks) && t.log.ran == s.log.ran
  }

  /** A step that emits 'close' has already detached the connection: nothing is attached or in
    progress, the next connection will read at once, and the callbacks of the close are lined up
    behind the listener in the order of registration. */
  lemma ClosedIsClean(s: State, e: Event)
    ensures CleanClose(s, Step(s, e))
  {
    hide Close, DestroyRest, Read, Resume, FinishClose;
    if Settles(e) {
      hide Step;
      SettledIsClean(s, e);
      return;
    }
    match e
    case EClose(callback) => PartsCloseNothing(s, callback, None, Granted);
    case EOnClose(q, reason) =>
      PartsCloseNothing(s, false, reason, Granted);
      FinishIsClean(s, q);
    case EDestroy => PartsCloseNothing(FailWaiting(s.(my := s.my.(destroyed := true))), false, None, Granted);
    case ERead(start) => PartsCloseNothing(s, false, None, start);
    case EReturn(start) =>
      if s.frames != [] {
        PartsCloseNothing(Pop(s), false, None, start);
        ResumeClosesNothing(Pop(s), start);
        if Top(s).FailedOpen? { FinishIsClean(Pop(s), Top(s).attempt); }
      }
    case _ =>
  }

  lemma FinishIsClean(s: State, n: nat)
    ensures CleanClose(s, FinishClose(s, n))
  {
  }

  lemma SettledIsClean(s: State, e: Event)
    requires Settles(e)
    ensures CleanClose(s, Step(s, e))
  {
    hide Close, ReadResolved, ReadRejected, FinishClose;
    match e
    case ECloseSettled(q, _) => FinishIsClean(s.(world := s.world.(closes := s.world.closes - multiset{q})), q);
    case ECancelSettled(q, _) => FinishIsClean(s.(world := s.world.(cancels := s.world.cancels - multiset{q})), q);
    case EOpenFailed =>
      if s.world.opening.Some? {
        FinishIsClean(FailWaiting(s.(my := s.my.(opening := false), world := s.world.(opening := None))),
                      s.world.opening.value);
      }
    case EReadResolved(_, _, _) => AnswerClosesNothing(s, e);
    case EReadRejected(_, _, _) => AnswerClosesNothing(s, e);
    case EWriteSettled(q, _, _) =>
      PartsCloseNothing(s.(world := s.world.(writes := s.world.writes - multiset{q})), false, Some(0), Granted);
    case _ =>
  }

  lemma AnswerClosesNothing(s: State, e: Event)
    requires e.EReadResolved? || e.EReadRejected?
    ensures Step(s, e).log.closed == s.log.closed
  {
    hide Read, ReadRefused;
    PartsCloseNothing(Forget(s, e.q), false, None, e.start);
    if e.EReadRejected? { PartsCloseNothing(Forget(s, e.q), false, None, Refused(e.canceled)); }
  }

  lemma PartsCloseNothing(s: State, callback: bool, reason: Option<nat>, start: Start)
    ensures Close(s, callback, reason).log.closed == s.log.closed
    ensures DestroyRest(s).log.closed == s.log.closed
    ensures Read(s, start).log.closed == s.log.closed
    ensures start.Refused? ==> ReadRefused(s, start.canceled).log.closed == s.log.closed
  {
    ReadClosesNothing(s, start);
    hide Read, ReadRefused;
  }

  lemma ReadClosesNothing(s: State, start: Start)
    ensures Read(s, start).log.closed == s.log.closed
    ensures start.Refused? ==> ReadRefused(s, start.canceled).log.closed == s.log.closed
  {
  }

  lemma ResumeClosesNothing(s: State, start: Start)
    ensures Resume(s, start).log.closed == s.log.closed
  {
    hide Read;
    ReadClosesNothing(s, start);
    ReadClosesNothing(SendWaiting(s), start);
  }

  /** A port that refuses to close and stays open. */
  predicate RefusesClose(s: State, e: Event, q: nat) {
    && s.frames == [] && s.my.port == Some(q) && q in s.world.openPorts
    && ((e == ECloseSettled(q, false) && q in s.world.closes) || (e == ECancelSettled(q, false) && q in s.world.cancels))
  }

  /** It stays attached and open; no 'close' is emitted; the first callback runs and the others are
    lined up behind it; and the stream can be closed again. */
  lemma RefusedCloseKeepsPort(s: State, q: nat, e: Event)
    requires RefusesClose(s, e, q)
    ensures var t := Step(s, e);
            && IsOpen(t) && t.my.port == s.my.port && t.log.closed == s.log.closed && t.my.closeCallbacks == []
            && t.frames != [] && Top(t).Failing?
            && t.log.ran + Top(t).callbacks == s.log.ran + s.my.closeCallbacks
            && Step(t, EClose(true)).my.closing
  {
    hide CloseFailed;
    RefusalKeepsPort(if e.ECloseSettled? then s.(world := s.world.(closes := s.world.closes - multiset{q}))
                     else s.(world := s.world.(cancels := s.world.cancels - multiset{q})), q);
  }

  lemma RefusalKeepsPort(s: State, q: nat)
    requires s.my.port == Some(q) && q in s.world.openPorts
    ensures var t := CloseFailed(s, q);
            && IsOpen(t) && t.my.port == s.my.port && t.log.closed == s.log.closed && t.my.closeCallbacks == []
            && t.frames != [] && Top(t).Failing? && t.world == s.world
            && t.log.ran + Top(t).callbacks == s.log.ran + s.my.closeCallbacks
  {
    var callbacks := s.my.closeCallbacks;
    if callbacks != [] {
      assert (s.log.ran + [callbacks[0]]) + callbacks[1..] == s.log.ran + callbacks;
    } else {
      assert s.log.ran + [] == s.log.ran;
    }
  }

  // ---- The end of a close ------------------------------------------------------------------------------

  predicate Awaited(s: State) {
    s.my.port.Some? && (s.my.port.value in s.world.closes || s.my.port.value in s.world.cancels)
  }

  /** The handler at the bottom will go on with the close. */
  predicate Handled(s: State) {
    s.frames != [] && (s.frames[0].FailedOpen? || (s.frames[0].Cancelling? && s.my.port == Some(s.frames[0].attempt)))
  }

  /** A close is in progress and nothing will end it but the port itself. */
  predicate Stuck(s: State) { s.my.closing && !s.my.opening && !Awaited(s) && !Handled(s) }

  /** The callback of the waiting write throws, while the handler of an opening that has been
    cancelled waits for it: `port.close()` or `_finishClose` is never called. */
  predicate StopsClose(s: State, e: Event) {
    && e.EThrow? && |s.frames| == 1 && Handled(s) && s.my.closing && !s.my.opening && !Awaited(s)
  }

  /** Exactly when a close gets stuck. */
  lemma {:induction false} CloseStops(events: seq<Event>, e: Event)
    requires !Stuck(Run(events))
    ensures Stuck(Run(events + [e])) <==> StopsClose(Run(events), e)
  {
    hide Run, Inv, Step, Stuck, StopsClose;
    Safety(events);
    RunSnoc(events, e);
    StopStep(Run(events), e);
  }

  lemma StopStep(s: State, e: Event)
    requires Inv(s) && !Stuck(s)
    ensures Stuck(Step(s, e)) <==> StopsClose(s, e)
  {
    hide Inv, Stuck, Close, FinishClose, Settle, DestroyRest, Read, ReadRefused, Return, Throw, Opened, OpenFailed;
    match e
    case EOpen => OpenMoves(s);
    case EOpened(live) => OpenedMoves(s, live);
    case EOpenFailed => OpenFailedMoves(s);
    case EClose(callback) => CloseMoves(s, callback, None);
    case ECloseSettled(q, ok) => SettledMoves(s, e);
    case ECancelSettled(q, ok) => SettledMoves(s, e);
    case EOnClose(q, reason) =>
      CloseMoves(s, false, reason);
      FinishMoves(s, q);
    case EDestroy => DestroyMoves(s);
    case ERead(start) => ReadMoves(s, start);
    case EReadResolved(_, _, _) => ReadSettledMoves(s, e);
    case EReadRejected(_, _, _) => ReadSettledMoves(s, e);
    case EOnData(_, _) => PlainMoves(s, e);
    case EWrite => PlainMoves(s, e);
    case EWriteSettled(q, _, _) => WriteSettledMoves(s, e);
    case EReturn(start) => ReturnMoves(s, start);
    case EThrow => ThrowMoves(s);
    case EPortChanges(_, _) => PlainMoves(s, e);
  }

  /** What will end a close is still there. */
  predicate SameEnd(s: State, t: State) {
    && t.my.closing == s.my.closing && t.my.opening == s.my.opening && t.my.port == s.my.port
    && s.world.closes <= t.world.closes && s.world.cancels <= t.world.cancels
    && (s.frames != [] ==> t.frames != [] && t.frames[0] == s.frames[0])
  }

  lemma SameEndMoves(s: State, t: State)
    requires SameEnd(s, t) && !Stuck(s)
    ensures !Stuck(t)
  {
  }

  lemma OpenMoves(s: State)
    requires !Stuck(s)
    ensures !Stuck(Open(s))
  {
  }

  lemma FinishMoves(s: State, n: nat)
    ensures !Stuck(FinishClose(s, n))
  {
  }

  lemma CloseMoves(s: State, callback: bool, reason: Option<nat>)
    requires !Stuck(s)
    ensures !Stuck(Close(s, callback, reason))
  {
  }

  lemma OpenedMoves(s: State, live: bool)
    requires !Stuck(s)
    ensures !Stuck(Opened(s, live))
  {
  }

  lemma OpenFailedMoves(s: State)
    requires !Stuck(s)
    ensures !Stuck(OpenFailed(s))
  {
    hide FinishClose;
    if s.frames == [] && s.world.opening.Some? {
      FinishMoves(FailWaiting(s.(my := s.my.(opening := false), world := s.world.(opening := None))),
                  s.world.opening.value);
    }
  }

  lemma SettledMoves(s: State, e: Event)
    requires !Stuck(s) && (e.ECloseSettled? || e.ECancelSettled?)
    ensures !Stuck(Step(s, e))
  {
    hide Settle, Stuck;
    var t := if e.ECloseSettled? then s.(world := s.world.(closes := s.world.closes - multiset{e.q}))
             else s.(world := s.world.(cancels := s.world.cancels - multiset{e.q}));
    if s.my.port != Some(e.q) { FewerMoves(s, t, e.q); }
    SettleMoves(t, e.q, e.ok);
  }

  lemma FewerMoves(s: State, t: State, q: nat)
    requires !Stuck(s) && s.my.port != Some(q)
    requires || t == s.(world := s.world.(closes := s.world.closes - multiset{q}))
             || t == s.(world := s.world.(cancels := s.world.cancels - multiset{q}))
    ensures !Stuck(t)
  {
  }

  lemma SettleMoves(s: State, q: nat, ok: bool)
    requires s.my.port == Some(q) || !Stuck(s)
    ensures !Stuck(Settle(s, q, ok))
  {
    hide FinishClose;
    FinishMoves(s, q);
  }

  lemma DestroyRestMoves(s: State)
    requires !Stuck(s)
    ensures !Stuck(DestroyRest(s))
  {
    hide Close;
    CloseMoves(s, true, None);
  }

  lemma DestroyMoves(s: State)
    requires !Stuck(s)
    ensures !Stuck(Destroy(s))
  {
    hide DestroyRest, Stuck;
    var t := FailWaiting(s.(my := s.my.(destroyed := true)));
    SameEndMoves(s, t);
    SameEndMoves(t, Push(t, Destroying));
    DestroyRestMoves(t);
  }

  lemma RefusedMoves(s: State, canceled: bool)
    requires !Stuck(s)
    ensures !Stuck(ReadRefused(s, canceled))
  {
    hide Close, Stuck;
    var t := s.(my := s.my.(readPort := if s.my.readPort == s.my.port then None else s.my.readPort));
    SameEndMoves(s, t);
    CloseMoves(t, false, Some(0));
  }

  lemma ReadMoves(s: State, start: Start)
    requires !Stuck(s)
    ensures !Stuck(Read(s, start))
  {
    hide ReadRefused, Stuck;
    SameEndMoves(s, s.(my := s.my.(readRequested := true)));
    var t := Asked(s.(my := s.my.(readRequested := true)));
    SameEndMoves(s, t);
    if start.Refused? { RefusedMoves(t, start.canceled); }
    if start.Requested? && s.my.port.Some? {
      SameEndMoves(t, t.(my := t.my.(readPort := t.my.port),
                         world := t.world.(requests := t.world.requests + multiset{t.my.port.value})));
    }
  }

  lemma ReadSettledMoves(s: State, e: Event)
    requires !Stuck(s) && (e.EReadResolved? || e.EReadRejected?)
    ensures !Stuck(Step(s, e))
  {
    hide Read, ReadRefused, Stuck;
    var t := Forget(s, e.q);
    SameEndMoves(s, t);
    ReadMoves(t, e.start);
    if e.EReadRejected? { RefusedMoves(t, e.canceled); } else { SameEndMoves(t, Deliver(t, e.q, e.data)); }
  }

  lemma PlainMoves(s: State, e: Event)
    requires !Stuck(s) && (e.EOnData? || e.EWrite? || e.EPortChanges?)
    ensures !Stuck(Step(s, e))
  {
    hide Stuck;
    SameEndMoves(s, Step(s, e));
  }

  lemma WriteSettledMoves(s: State, e: Event)
    requires !Stuck(s) && e.EWriteSettled?
    ensures !Stuck(Step(s, e))
  {
    hide Close, Stuck;
    var t := s.(world := s.world.(writes := s.world.writes - multiset{e.q}));
    SameEndMoves(s, t);
    CloseMoves(t, false, Some(0));
  }

  lemma ResumeMoves(s: State, start: Start)
    requires !Stuck(s)
    ensures !Stuck(Resume(s, start))
  {
    hide Read, Stuck;
    SameEndMoves(s, SendWaiting(s));
    ReadMoves(SendWaiting(s), start);
  }

  /** Only a handler of an opening matters for the end of a close. */
  lemma PopMoves(s: State)
    requires Inv(s) && !Stuck(s) && s.frames != [] && Plain(Top(s))
    ensures !Stuck(Pop(s))
  {
    hide Ports, Callbacks, Closes, Requests;
    if |s.frames| > 1 { SameEndMoves(s, Pop(s)); }
  }

  lemma NextMoves(s: State, next: Frame)
    requires Inv(s) && !Stuck(s) && s.frames != [] && Plain(Top(s)) && Top(s).Callbacks() != []
    ensures !Stuck(Next(s, next))
  {
    hide Inv, Stuck;
    PopMoves(s);
    SameEndMoves(Pop(s), Next(s, next));
  }

  lemma ReturnMoves(s: State, start: Start)
    requires Inv(s) && !Stuck(s)
    ensures !Stuck(Return(s, start))
  {
    hide Inv, Stuck, Resume, DestroyRest, FinishIfClosing, CancelPort;
    if s.frames != [] {
      if Top(s).Cancelling? {
        CancellingMoves(s);
      } else if Top(s).FailedOpen? {
        FailedOpenMoves(s);
      } else {
        PopMoves(s);
        if Top(s).Callbacks() != [] {
          NextMoves(s, if Top(s).Finishing? then Finishing(Top(s).callbacks[1..]) else Failing(Top(s).callbacks[1..]));
        }
        ResumeMoves(Pop(s), start);
        DestroyRestMoves(Pop(s));
      }
    }
  }

  lemma CancellingMoves(s: State)
    requires Inv(s) && !Stuck(s) && s.frames != [] && Top(s).Cancelling?
    ensures !Stuck(CancelPort(Pop(s), Top(s).attempt))
  {
    hide Ports, Callbacks, Closes, Requests;
  }

  lemma FailedOpenMoves(s: State)
    requires Inv(s) && !Stuck(s) && s.frames != [] && Top(s).FailedOpen?
    ensures !Stuck(FinishIfClosing(Pop(s), Top(s).attempt))
  {
    hide Inv;
  }

  lemma ThrowMoves(s: State)
    requires Inv(s) && !Stuck(s)
    ensures Stuck(Throw(s)) <==> StopsClose(s, EThrow)
  {
    hide Ports, Callbacks, Closes, Requests;
    if |s.frames| > 1 { assert Throw(s).frames[0] == s.frames[0]; }
  }

  /** A close in progress that is not stuck is ended by what it waits for, however that settles, or
    is handed on to the next thing that will. */
  lemma {:induction false} CloseEnds(events: seq<Event>)
    ensures var s := Run(events);
            s.my.closing && !Stuck(s) && s.frames == [] ==>
              || (s.my.opening && s.world.opening.Some?
                  && (forall live :: !Stuck(Step(s, EOpened(live)))) && !Stuck(Step(s, EOpenFailed)))
              || (s.my.port.Some? && s.my.port.value in s.world.closes
                  && forall ok :: !Step(s, ECloseSettled(s.my.port.value, ok)).my.closing)
              || (s.my.port.Some? && s.my.port.value in s.world.cancels
                  && forall ok :: !Step(s, ECancelSettled(s.my.port.value, ok)).my.closing)
  {
    hide Run, Inv, Step;
    Safety(events);
    if Run(events).my.closing && !Stuck(Run(events)) && Run(events).frames == [] { CloseEndsNow(Run(events)); }
  }

  lemma CloseEndsNow(s: State)
    requires Inv(s) && s.my.closing && !Stuck(s) && s.frames == []
    ensures s.my.opening || Awaited(s)
    ensures s.my.opening ==> s.world.opening.Some?
                             && (forall live :: !Stuck(Step(s, EOpened(live)))) && !Stuck(Step(s, EOpenFailed))
    ensures s.my.port.Some? && s.my.port.value in s.world.closes ==>
              forall ok :: !Step(s, ECloseSettled(s.my.port.value, ok)).my.closing
    ensures s.my.port.Some? && s.my.port.value in s.world.cancels ==>
              forall ok :: !Step(s, ECancelSettled(s.my.port.value, ok)).my.closing
  {
    hide Step, Callbacks, Closes, Requests, Frames;
    OpeningMoves(s);
    if s.my.port.Some? && s.my.port.value in s.world.closes {
      forall ok { PromiseEnds(s, ECloseSettled(s.my.port.value, ok)); }
    }
    if s.my.port.Some? && s.my.port.value in s.world.cancels {
      forall ok { PromiseEnds(s, ECancelSettled(s.my.port.value, ok)); }
    }
  }

  lemma OpeningMoves(s: State)
    requires !Stuck(s)
    ensures (forall live :: !Stuck(Step(s, EOpened(live)))) && !Stuck(Step(s, EOpenFailed))
  {
    hide Opened, OpenFailed, Stuck;
    forall live ensures !Stuck(Step(s, EOpened(live))) { OpenedMoves(s, live); }
    OpenFailedMoves(s);
  }

  lemma PromiseEnds(s: State, e: Event)
    requires s.frames == [] && s.my.port.Some?
    requires (e.ECloseSettled? && e.q in s.world.closes) || (e.ECancelSettled? && e.q in s.world.cancels)
    requires e.q == s.my.port.value
    ensures !Step(s, e).my.closing
  {
    hide Settle;
    SettleEnds(if e.ECloseSettled? then s.(world := s.world.(closes := s.world.closes - multiset{e.q}))
               else s.(world := s.world.(cancels := s.world.cancels - multiset{e.q})), e.q, e.ok);
  }

  lemma SettleEnds(s: State, q: nat, ok: bool)
    requires s.my.port == Some(q)
    ensures !Settle(s, q, ok).my.closing
  {
  }

  /** Without exceptions no close gets stuck. */
  lemma {:induction false} NoThrowNeverStuck(events: seq<Event>)
    requires forall e :: e in events ==> !e.EThrow?
    ensures !Stuck(Run(events))
  {
    hide Step, Stuck;
    if events == [] {
      assert !Stuck(Init()) by { InitMoves(); }
    } else {
      var rest, e := events[..|events| - 1], events[|events| - 1];
      assert events == rest + [e] && e in events;
      forall x | x in rest ensures !x.EThrow? { assert x in events; }
      NoThrowNeverStuck(rest);
      CloseStops(rest, e);
    }
  }

  lemma InitMoves()
    ensures !Stuck(Init())
  {
  }

  // ---- Cancelling an opening ---------------------------------------------------------------------------

  predicate OpenAs(s: State, n: nat) { s.my.port == Some(n) && IsOpen(s) }

  /** The opening `n` has been cancelled, and nothing of an earlier attempt can end the close first. */
  predicate Pending(s: State, n: nat) {
    s.my.opening && s.world.opening == Some(n) && s.my.closing && s.my.port.None? && Bottom(s.frames).None?
  }

  /** Its port has arrived and is to be closed. */
  predicate Arrived(s: State, n: nat) {
    s.my.port == Some(n) && s.my.closing && !s.my.opening && n !in s.world.closes
  }

  /** Its port is gone, or has never come. */
  predicate Gone(s: State, n: nat) { s.my.port != Some(n) && s.world.opening != Some(n) && n < s.world.opens }

  predicate Cancelled(s: State, n: nat) { Pending(s, n) || Arrived(s, n) || Gone(s, n) }

  lemma CancelledStep(s: State, e: Event, n: nat)
    requires Inv(s) && Cancelled(s, n) && !RefusesClose(s, e, n)
    ensures Cancelled(Step(s, e), n)
  {
    hide Inv, Step, Pending, Arrived, Gone;
    if Pending(s, n) {
      PendingStep(s, e, n);
    } else if Arrived(s, n) {
      ArrivedStep(s, e, n);
    } else {
      GoneStep(s, e, n);
    }
  }

  // Which port is attached and which opening is in progress.

  predicate SamePort(s: State, t: State) {
    t.world.opens == s.world.opens && t.world.opening == s.world.opening && t.my.port == s.my.port
  }

  lemma CloseKeepsPort(s: State, callback: bool, reason: Option<nat>)
    ensures SamePort(s, Close(s, callback, reason)) && SamePort(s, DestroyRest(s))
  {
  }

  lemma ReadKeepsPort(s: State, start: Start)
    ensures SamePort(s, Read(s, start))
    ensures start.Refused? ==> SamePort(s, ReadRefused(s, start.canceled))
  {
    hide Close;
    var t := s.(my := s.my.(readPort := if s.my.readPort == s.my.port then None else s.my.readPort));
    CloseKeepsPort(t, false, Some(0));
    CloseKeepsPort(Asked(t.(my := t.my.(readRequested := true))), false, Some(0));
  }

  lemma ResumeKeepsPort(s: State, start: Start)
    ensures SamePort(s, Resume(s, start))
  {
    hide Read;
    ReadKeepsPort(s, start);
    ReadKeepsPort(SendWaiting(s), start);
  }

  lemma FinishDetaches(s: State, n: nat)
    ensures var t := FinishClose(s, n);
            t.world == s.world && (t.my.port == s.my.port || t.my.port.None?) && (s.my.port.Some? ==> t.my.port.None?)
  {
  }

  lemma SettleDetaches(s: State, q: nat, ok: bool)
    ensures var t := Settle(s, q, ok); t.world == s.world && (t.my.port == s.my.port || t.my.port.None?)
  {
    hide FinishClose;
    FinishDetaches(s, q);
  }

  /** A port only comes from the opening in progress, and an opening gets a number of its own. */
  predicate PortKept(s: State, t: State) {
    && s.world.opens <= t.world.opens
    && (t.my.port == s.my.port || t.my.port.None? || t.my.port == s.world.opening)
    && (t.world.opening == s.world.opening || t.world.opening.None? || t.world.opening == Some(s.world.opens))
  }

  lemma PortStep(s: State, e: Event)
    ensures PortKept(s, Step(s, e))
  {
    hide Close, FinishClose, DestroyRest, Read, Return;
    if Settles(e) {
      hide Step;
      PortSettles(s, e);
      return;
    }
    match e
    case EClose(callback) => CloseKeepsPort(s, callback, None);
    case EOnClose(q, reason) =>
      CloseKeepsPort(s, false, reason);
      FinishDetaches(s, q);
    case EDestroy => CloseKeepsPort(FailWaiting(s.(my := s.my.(destroyed := true))), false, None);
    case ERead(start) => ReadKeepsPort(s, start);
    case EReturn(start) => ReturnKeepsPort(s, start);
    case _ =>
  }

  lemma PortSettles(s: State, e: Event)
    requires Settles(e)
    ensures PortKept(s, Step(s, e))
  {
    hide Step, PortKept;
    match e
    case EOpened(live) => OpenedKeepsPort(s, live);
    case EOpenFailed => FailedOpenKeepsPort(s);
    case ECloseSettled(_, _) => PromiseKeepsPort(s, e);
    case ECancelSettled(_, _) => PromiseKeepsPort(s, e);
    case EReadResolved(_, _, _) => AnswerKeepsPort(s, e);
    case EReadRejected(_, _, _) => AnswerKeepsPort(s, e);
    case EWriteSettled(_, _, _) => PromiseKeepsPort(s, e);
  }

  lemma PromiseKeepsPort(s: State, e: Event)
    requires e.ECloseSettled? || e.ECancelSettled? || e.EWriteSettled?
    ensures PortKept(s, Step(s, e))
  {
    hide Close, Settle;
    match e
    case ECloseSettled(q, ok) => SettleDetaches(s.(world := s.world.(closes := s.world.closes - multiset{q})), q, ok);
    case ECancelSettled(q, ok) => SettleDetaches(s.(world := s.world.(cancels := s.world.cancels - multiset{q})), q, ok);
    case EWriteSettled(q, _, _) =>
      CloseKeepsPort(s.(world := s.world.(writes := s.world.writes - multiset{q})), false, Some(0));
  }

  lemma OpenedKeepsPort(s: State, live: bool)
    ensures PortKept(s, Step(s, EOpened(live)))
  {
  }

  lemma FailedOpenKeepsPort(s: State)
    ensures PortKept(s, Step(s, EOpenFailed))
  {
    hide FinishClose;
    if s.world.opening.Some? {
      FinishDetaches(FailWaiting(s.(my := s.my.(opening := false), world := s.world.(opening := None))),
                     s.world.opening.value);
    }
  }

  lemma AnswerKeepsPort(s: State, e: Event)
    requires e.EReadResolved? || e.EReadRejected?
    ensures PortKept(s, Step(s, e))
  {
    hide Read, ReadRefused;
    ReadKeepsPort(Forget(s, e.q), e.start);
    if e.EReadRejected? { ReadKeepsPort(Forget(s, e.q), Refused(e.canceled)); }
  }

  lemma ReturnKeepsPort(s: State, start: Start)
    ensures PortKept(s, Return(s, start))
  {
    hide Close, FinishClose, DestroyRest, Read, Resume;
    if s.frames != [] {
      ResumeKeepsPort(Pop(s), start);
      CloseKeepsPort(Pop(s), false, None);
      FinishDetaches(Pop(s), if Top(s).FailedOpen? then Top(s).attempt else 0);
    }
  }

  lemma GoneStep(s: State, e: Event, n: nat)
    requires Gone(s, n)
    ensures Gone(Step(s, e), n)
  {
    hide Step;
    PortStep(s, e);
  }

  // While a close is in progress, few events matter to it.

  predicate SameClose(s: State, t: State) {
    && SamePort(s, t) && t.my.closing == s.my.closing && t.my.opening == s.my.opening && t.world.closes == s.world.closes
    && (Bottom(t.frames) == Bottom(s.frames) || Bottom(t.frames).None?)
  }

  lemma ReadWhileClosing(s: State, start: Start)
    requires s.my.closing
    ensures SameClose(s, Read(s, start)) && Resume(s, start) == s
    ensures start.Refused? ==> SameClose(s, ReadRefused(s, start.canceled))
  {
  }

  lemma DestroyWhileClosing(s: State)
    requires s.my.closing
    ensures SameClose(s, Destroy(s)) && SameClose(s, DestroyRest(s))
  {
    BottomPush(s.frames, Destroying);
  }

  lemma ReadSettledWhileClosing(s: State, e: Event)
    requires s.my.closing && (e.EReadResolved? || e.EReadRejected?)
    ensures SameClose(s, Step(s, e))
  {
    hide Read, ReadRefused;
    ReadWhileClosing(Forget(s, e.q), e.start);
    if e.EReadRejected? { ReadWhileClosing(Forget(s, e.q), Refused(e.canceled)); }
  }

  lemma BottomPop(frames: seq<Frame>)
    requires frames != []
    ensures Bottom(frames[..|frames| - 1]) == Bottom(frames) || Bottom(frames[..|frames| - 1]).None?
  {
  }

  lemma PopWhileClosing(s: State)
    requires s.frames != []
    ensures SameClose(s, Pop(s))
  {
    BottomPop(s.frames);
  }

  lemma ReturnWhileClosing(s: State, start: Start)
    requires s.my.closing && (s.frames != [] ==> !Top(s).FailedOpen?)
    ensures SameClose(s, Return(s, start))
  {
    hide Resume, DestroyRest, Bottom;
    if s.frames != [] {
      PopWhileClosing(s);
      ReadWhileClosing(Pop(s), start);
      DestroyWhileClosing(Pop(s));
      if Top(s).Callbacks() != [] {
        BottomReplace(s.frames, Finishing(Top(s).Callbacks()[1..]));
        BottomReplace(s.frames, Failing(Top(s).Callbacks()[1..]));
      }
    }
  }

  lemma BottomReplace(frames: seq<Frame>, f: Frame)
    requires frames != [] && Plain(f)
    ensures Bottom(frames[..|frames| - 1] + [f]) == Bottom(frames) || Bottom(frames[..|frames| - 1] + [f]).None?
  {
    if |frames| > 1 { assert (frames[..|frames| - 1] + [f])[0] == frames[0]; }
  }

  predicate Decisive(s: State, e: Event) {
    e.EOpened? || e.EOpenFailed? || e.ECloseSettled? || e.ECancelSettled? || e.EOnClose?
    || (e.EReturn? && s.frames != [] && Top(s).FailedOpen?)
  }

  lemma StepWhileClosing(s: State, e: Event)
    requires s.my.closing && !Decisive(s, e)
    ensures SameClose(s, Step(s, e))
  {
    hide SameClose, Read, Return, Destroy, ReadResolved, ReadRejected;
    match e
    case EDestroy => DestroyWhileClosing(s);
    case ERead(start) => ReadWhileClosing(s, start);
    case EReadResolved(_, _, _) => ReadSettledWhileClosing(s, e);
    case EReadRejected(_, _, _) => ReadSettledWhileClosing(s, e);
    case EReturn(start) => ReturnWhileClosing(s, start);
    case EThrow => ThrowWhileClosing(s);
    case _ => OtherWhileClosing(s, e);
  }

  lemma ThrowWhileClosing(s: State)
    ensures SameClose(s, Throw(s))
  {
    hide Bottom;
    if s.frames != [] { BottomPop(s.frames); }
  }

  lemma OtherWhileClosing(s: State, e: Event)
    requires s.my.closing
    requires e.EOpen? || e.EClose? || e.EOnData? || e.EWrite? || e.EWriteSettled? || e.EPortChanges?
    ensures SameClose(s, Step(s, e))
  {
    hide Bottom;
  }

  lemma PendingStep(s: State, e: Event, n: nat)
    requires Inv(s) && Pending(s, n)
    ensures Cancelled(Step(s, e), n)
  {
    hide Inv, Step, Settled;
    PendingFacts(s, n);
    if !Decisive(s, e) {
      StepWhileClosing(s, e);
    } else if e.EReturn? {
    } else {
      PendingDecides(s, e, n);
    }
  }

  lemma PendingFacts(s: State, n: nat)
    requires Inv(s) && Pending(s, n)
    ensures n < s.world.opens && n !in s.world.closes && (s.frames != [] ==> !Top(s).FailedOpen?)
  {
    hide Callbacks, Closes;
  }

  lemma PendingDecides(s: State, e: Event, n: nat)
    requires Pending(s, n) && n < s.world.opens && n !in s.world.closes
    requires e.EOpened? || e.EOpenFailed? || e.ECloseSettled? || e.ECancelSettled? || e.EOnClose?
    ensures Cancelled(Step(s, e), n)
  {
    hide Bottom, FinishClose;
    if e.EOpenFailed? {
      FinishDetaches(FailWaiting(s.(my := s.my.(opening := false), world := s.world.(opening := None))), n);
    }
  }

  lemma ArrivedStep(s: State, e: Event, n: nat)
    requires Inv(s) && Arrived(s, n) && !RefusesClose(s, e, n)
    ensures Cancelled(Step(s, e), n)
  {
    hide Inv, Step;
    ArrivedFacts(s, n);
    if !Decisive(s, e) {
      StepWhileClosing(s, e);
    } else if e.EReturn? {
      FinishArrived(s, e, n);
    } else {
      ArrivedDecides(s, e, n);
    }
  }

  lemma ArrivedFacts(s: State, n: nat)
    requires Inv(s) && Arrived(s, n)
    ensures n < s.world.opens && s.world.opening.None?
  {
    hide Callbacks, Closes, Requests, Frames;
  }

  lemma FinishArrived(s: State, e: Event, n: nat)
    requires Arrived(s, n) && n < s.world.opens && s.world.opening.None?
    requires e.EReturn? && s.frames != [] && Top(s).FailedOpen?
    ensures Gone(Step(s, e), n)
  {
    hide FinishClose;
    FinishDetaches(Pop(s), Top(s).attempt);
  }

  lemma ArrivedDecides(s: State, e: Event, n: nat)
    requires Arrived(s, n) && n < s.world.opens && s.world.opening.None? && !RefusesClose(s, e, n)
    requires e.EOpened? || e.EOpenFailed? || e.ECloseSettled? || e.ECancelSettled? || e.EOnClose?
    ensures Arrived(Step(s, e), n) || Gone(Step(s, e), n)
  {
    hide FinishClose;
    FinishDetaches(s, n);
    if e.ECancelSettled? { FinishDetaches(s.(world := s.world.(cancels := s.world.cancels - multiset{e.q})), e.q); }
  }

  // The cancelled attempt over a whole run.

  /** The port of attempt `n` does not refuse to close during `more`. */
  ghost predicate NoRefusal(before: seq<Event>, more: seq<Event>, n: nat) {
    forall k :: 0 <= k < |more| ==> !RefusesClose(Run(before + more[..k]), more[k], n)
  }

  lemma NoRefusalLast(before: seq<Event>, more: seq<Event>, e: Event, n: nat)
    requires NoRefusal(before, more + [e], n)
    ensures NoRefusal(before, more, n) && !RefusesClose(Run(before + more), e, n)
  {
    hide Run, RefusesClose;
    var all := more + [e];
    assert all[..|more|] == more && all[|more|] == e;
    forall k | 0 <= k < |more| ensures !RefusesClose(Run(before + more[..k]), more[k], n) {
      assert all[..k] == more[..k] && all[k] == more[k];
    }
  }

  lemma {:induction false} StaysCancelled(before: seq<Event>, more: seq<Event>, n: nat)
    requires Cancelled(Run(before), n) && NoRefusal(before, more, n)
    ensures Cancelled(Run(before + more), n)
    decreases |more|
  {
    hide Run, Inv, Step, Cancelled, RefusesClose, NoRefusal;
    if more == [] {
      assert before + more == before;
    } else {
      var rest, e := more[..|more| - 1], more[|more| - 1];
      assert more == rest + [e] && before + more == (before + rest) + [e];
      NoRefusalLast(before, rest, e, n);
      StaysCancelled(before, rest, n);
      Safety(before + rest);
      RunSnoc(before + rest, e);
      CancelledStep(Run(before + rest), e, n);
    }
  }

  /** Nothing of an earlier attempt is left: no port is attached and no handler of a failed opening
    is waiting for the application. */
  predicate Clean(s: State) { s.my.port.None? && Bottom(s.frames).None? }

  lemma CleanIsPending(s: State)
    requires Inv(s) && s.my.opening && s.my.closing
    ensures s.world.opening.Some? && (Clean(s) ==> Cancelled(s, s.world.opening.value))
    ensures forall n :: Cancelled(s, n) ==> !OpenAs(s, n)
  {
    hide Callbacks, Closes, Requests, Frames;
  }

  lemma CancelledIsNotOpen(s: State, n: nat)
    requires Cancelled(s, n)
    ensures !OpenAs(s, n)
  {
  }

  /** An opening that is cancelled with nothing left of an earlier attempt becomes the open
    connection exactly when its port refuses to close. */
  lemma {:induction false} CancelledOpening(before: seq<Event>, more: seq<Event>)
    requires Run(before).my.opening && Run(before).my.closing && Clean(Run(before))
    ensures Run(before).world.opening.Some?
    ensures var n := Run(before).world.opening.value;
            (exists k :: 0 <= k <= |more| && OpenAs(Run(before + more[..k]), n)) <==> !NoRefusal(before, more, n)
  {
    hide Run, Inv, Clean, Cancelled, RefusesClose, OpenAs;
    Safety(before);
    CleanIsPending(Run(before));
    var n := Run(before).world.opening.value;
    if NoRefusal(before, more, n) {
      forall k | 0 <= k <= |more| ensures !OpenAs(Run(before + more[..k]), n) {
        forall j | 0 <= j < k ensures !RefusesClose(Run(before + more[..k][..j]), more[..k][j], n) {
          assert more[..k][..j] == more[..j];
        }
        StaysCancelled(before, more[..k], n);
        CancelledIsNotOpen(Run(before + more[..k]), n);
      }
    } else {
      var k :| 0 <= k < |more| && RefusesClose(Run(before + more[..k]), more[k], n);
      assert before + more[..k + 1] == (before + more[..k]) + [more[k]];
      RunSnoc(before + more[..k], more[k]);
      RefusalOpens(Run(before + more[..k]), n, more[k]);
      assert OpenAs(Run(before + more[..k + 1]), n);
    }
  }

  lemma RefusalOpens(s: State, n: nat, e: Event)
    requires RefusesClose(s, e, n)
    ensures OpenAs(Step(s, e), n)
  {
    RefusedCloseKeepsPort(s, n, e);
    hide RefusesClose, Step;
  }

  // What is left of an earlier attempt can end the close before the opening settles.

  function Throws(n: nat): seq<Event> { seq(n, _ => EThrow) }

  lemma {:induction false} RunThrows(before: seq<Event>, n: nat)
    requires n <= |Run(before).frames|
    ensures var s, t := Run(before), Run(before + Throws(n));
            t.my == s.my && t.world == s.world && t.frames == s.frames[..|s.frames| - n]
  {
    hide Run;
    if n == 0 {
      assert before + Throws(0) == before;
    } else {
      RunThrows(before, n - 1);
      assert before + Throws(n) == (before + Throws(n - 1)) + [EThrow];
      RunSnoc(before + Throws(n - 1), EThrow);
    }
  }

  /** Events that settle no close. */
  ghost predicate Quietly(events: seq<Event>) { forall e :: e in events ==> !e.ECloseSettled? && !e.ECancelSettled? }

  lemma QuietlyRefusesNothing(before: seq<Event>, more: seq<Event>, n: nat)
    requires Quietly(more)
    ensures NoRefusal(before, more, n)
  {
    hide Run;
    forall k | 0 <= k < |more| ensures !RefusesClose(Run(before + more[..k]), more[k], n) { assert more[k] in more; }
  }

  /** With the close ended and the opening still in progress, its port arrives and stays. */
  lemma OpensAnyway(before: seq<Event>, n: nat) returns (more: seq<Event>)
    requires Run(before).world.opening == Some(n) && !Run(before).my.closing
    ensures Quietly(more) && OpenAs(Run(before + more), n)
  {
    hide Run;
    var count := |Run(before).frames|;
    more := Throws(count) + [EOpened(true)];
    RunThrows(before, count);
    assert before + more == (before + Throws(count)) + [EOpened(true)];
    RunSnoc(before + Throws(count), EOpened(true));
  }

  lemma QuietlyJoined(a: seq<Event>, b: seq<Event>)
    requires Quietly(a) && Quietly(b)
    ensures Quietly(a + b)
  {
  }

  lemma EarlierPortEnds(before: seq<Event>) returns (more: seq<Event>)
    requires var s := Run(before); s.my.port.Some? && s.my.opening && s.my.closing && s.world.opening.Some?
    ensures Quietly(more) && Run(before + more).world.opening == Run(before).world.opening
    ensures !Run(before + more).my.closing
  {
    hide Run, Inv;
    var p := Run(before).my.port.value;
    Safety(before);
    PortIsKnown(Run(before));
    more := [EPortChanges(p, false)] + [EOnClose(p, None)];
    RunSnoc(before, EPortChanges(p, false));
    RunSnoc(before + [EPortChanges(p, false)], EOnClose(p, None));
    assert before + more == (before + [EPortChanges(p, false)]) + [EOnClose(p, None)];
  }

  lemma PortIsKnown(s: State)
    requires Inv(s)
    ensures s.my.port.Some? ==> s.my.port.value < s.world.opens
    ensures s.my.opening ==> s.world.opening.Some?
  {
    hide Callbacks, Closes, Requests, Frames;
  }

  lemma EarlierHandlerEnds(before: seq<Event>) returns (more: seq<Event>)
    requires var s := Run(before); s.my.port.None? && Bottom(s.frames).Some? && s.my.closing
    ensures Quietly(more) && Run(before + more).world.opening == Run(before).world.opening
    ensures !Run(before + more).my.closing
  {
    hide Run;
    var count := |Run(before).frames| - 1;
    more := Throws(count) + [EReturn(Granted)];
    RunThrows(before, count);
    assert before + more == (before + Throws(count)) + [EReturn(Granted)];
    RunSnoc(before + Throws(count), EReturn(Granted));
  }

  lemma NotCleanOpens(before: seq<Event>) returns (more: seq<Event>)
    requires Run(before).my.opening && Run(before).my.closing && !Clean(Run(before)) && Run(before).world.opening.Some?
    ensures Quietly(more) && OpenAs(Run(before + more), Run(before).world.opening.value)
  {
    hide Run, OpenAs, Quietly;
    var first: seq<Event>;
    if Run(before).my.port.Some? { first := EarlierPortEnds(before); } else { first := EarlierHandlerEnds(before); }
    var second := OpensAnyway(before + first, Run(before).world.opening.value);
    more := first + second;
    QuietlyJoined(first, second);
    assert before + more == (before + first) + second;
  }

  /** Exactly when cancelling an opening holds: nothing is left of an earlier attempt.  Otherwise the
    cancelled attempt can become the open connection although its port never refused to close. */
  lemma {:induction false} CancelHolds(before: seq<Event>)
    requires Run(before).my.opening && Run(before).my.closing
    ensures Run(before).world.opening.Some?
    ensures var n := Run(before).world.opening.value;
            Clean(Run(before)) <==> forall more :: OpenAs(Run(before + more), n) ==> !NoRefusal(before, more, n)
  {
    hide Run, Inv, Clean, OpenAs, NoRefusal;
    Safety(before);
    PortIsKnown(Run(before));
    var n := Run(before).world.opening.value;
    if Clean(Run(before)) {
      forall more ensures OpenAs(Run(before + more), n) ==> !NoRefusal(before, more, n) {
        CancelledOpening(before, more);
        assert more[..|more|] == more;
      }
    } else {
      var more := NotCleanOpens(before);
      QuietlyRefusesNothing(before, more, n);
    }
  }
}
