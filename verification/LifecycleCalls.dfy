/** Exactly which events open, close, ask and deliver. */
module LifecycleCalls {
  import opened Common
  import opened Lifecycle
  import opened LifecycleSafety
  import opened LifecycleData

  /** Something can be closed: an open port, or an opening that is in progress. */
  predicate CanClose(s: State) { IsOpen(s) || s.my.opening }

  /** The answer to a read request, or the end of a write, that is expected. */
  predicate Expected(s: State, e: Event) {
    && s.frames == []
    && ((e.EReadResolved? && e.q in s.world.requests) || (e.EReadRejected? && e.q in s.world.requests)
        || (e.EWriteSettled? && e.q in s.world.writes))
  }

  /** `_read` is called: by Node, when a replaced port answers, or by `_resumeIO` for data that is
    requested. */
  predicate Reads(s: State, e: Event) {
    || e.ERead?
    || ((e.EReadResolved? || e.EReadRejected?) && Expected(s, e) && s.my.port != Some(e.q) && IsOpen(s))
    || (e.EReturn? && Resumes(s) && s.my.readRequested)
  }

  /** It finds the port open and not already reading. */
  predicate Asks(s: State, e: Event) { Reads(s, e) && IsOpen(s) && s.my.readPort != s.my.port }

  function Answer(e: Event): Start {
    if e.ERead? || e.EReadResolved? || e.EReadRejected? || e.EReturn? then e.start else Granted
  }

  /** A failure of the current port that was not canceled. */
  predicate Breaks(s: State, e: Event) {
    || (e.EWriteSettled? && Expected(s, e) && s.my.port == Some(e.q) && !e.ok && !e.canceled)
    || (e.EReadRejected? && Expected(s, e) && s.my.port == Some(e.q) && !e.canceled)
    || (Asks(s, e) && Answer(e) == Refused(false))
  }

  /** `_destroy` gets to closing, at once or after the callback of the waiting write. */
  predicate Destroys(s: State, e: Event) {
    || (e.EDestroy? && !s.my.destroyed && s.my.waitingWrite.None?)
    || (e.EReturn? && s.frames != [] && Top(s).Destroying?)
  }

  /** A close begins: the application or the port asks for it, the stream is destroyed, or the open
    port fails. */
  predicate BeginsClose(s: State, e: Event) {
    && !s.my.closing
    && ((e.EClose? && CanClose(s)) || (Destroys(s, e) && CanClose(s))
        || (e.EOnClose? && s.my.port == Some(e.q) && IsOpen(s)) || (Breaks(s, e) && IsOpen(s)))
  }

  /** A failure gives a reason, and the port itself may. */
  function Reason(s: State, e: Event): Option<nat> {
    if e.EOnClose? then e.reason else if Breaks(s, e) then Some(0) else None
  }

  /** The callback that comes with the close. */
  function Brings(s: State, e: Event): seq<nat> {
    if e == EClose(true) || Destroys(s, e) then [s.log.registered] else []
  }

  /** A connection or an attempt ends, and 'close' is emitted: its port has closed by itself; its
    promised close was kept, or refused by a port that is no longer open; or it had been cancelled
    and failed. */
  predicate EndsClose(s: State, e: Event) {
    || (e.EOnClose? && s.my.port == Some(e.q) && e.q !in s.world.openPorts)
    || (Settling(s, e) && (e.ok || e.q !in s.world.openPorts))
    || (FailsOpening(s, e) && s.my.closing)
  }

  /** The promise of `port.close()` settles for the current port. */
  predicate Settling(s: State, e: Event) {
    && s.frames == []
    && ((e.ECloseSettled? && e.q in s.world.closes && s.my.port == Some(e.q))
        || (e.ECancelSettled? && e.q in s.world.cancels && s.my.port == Some(e.q)))
  }

  /** The handler of a failed opening gets to its end, at once or after the callback of the waiting
    write. */
  predicate FailsOpening(s: State, e: Event) {
    || (e.EOpenFailed? && Concludes(s) && s.my.waitingWrite.None?)
    || (e.EReturn? && s.frames != [] && Top(s).FailedOpen?)
  }

  /** The connection or the attempt that ends. */
  function EndedBy(s: State, e: Event): nat {
    if s.my.port.Some? then s.my.port.value
    else if e.EOpenFailed? && Concludes(s) then s.world.opening.value
    else if FailsOpening(s, e) then Top(s).attempt else 0
  }

  // ---- Closing -----------------------------------------------------------------------------------------

  /** What an event does to the close in progress. */
  datatype Turn =
    | Stays
    | Begins(reason: Option<nat>, callbacks: seq<nat>)
    | Joins              // the callback of `_destroy` joins it
    | Ends(attempt: nat)
    | Reverts            // refused by a port that is still open

  function TurnOf(s: State, e: Event): Turn {
    if BeginsClose(s, e) then Begins(Reason(s, e), Brings(s, e))
    else if EndsClose(s, e) then Ends(EndedBy(s, e))
    else if Settling(s, e) then Reverts
    else if s.my.closing && Destroys(s, e) then Joins
    else Stays
  }

  ghost predicate Turns(s: State, t: State, turn: Turn) {
    match turn
    case Stays =>
      SameClosing(s, t) && t.log.closed == s.log.closed && t.world.closes <= s.world.closes
    case Begins(reason, callbacks) =>
      && t.my.closing && t.my.closeError == reason && t.my.closeCallbacks == s.my.closeCallbacks + callbacks
      && t.log.closed == s.log.closed && Requested(s, t)
    case Joins =>
      && t.my.closing && t.my.closeError == s.my.closeError && t.log.closed == s.log.closed
      && t.my.closeCallbacks == s.my.closeCallbacks + [s.log.registered] && t.world.closes == s.world.closes
    case Ends(attempt) =>
      NoClosing(t) && t.log.closed == s.log.closed + [attempt] && t.world.closes <= s.world.closes
    case Reverts =>
      NoClosing(t) && t.log.closed == s.log.closed && t.world.closes <= s.world.closes
  }

  predicate SameClosing(s: State, t: State) {
    t.my.closing == s.my.closing && t.my.closeError == s.my.closeError && t.my.closeCallbacks == s.my.closeCallbacks
  }

  predicate NoClosing(t: State) { !t.my.closing && t.my.closeError.None? && t.my.closeCallbacks == [] }

  /** `port.close()` is called once, unless the port is still to come. */
  ghost predicate Requested(s: State, t: State) {
    if s.my.opening || s.my.port.None? then t.world.closes == s.world.closes
    else t.world.closes == s.world.closes + multiset{s.my.port.value}
  }

  lemma CloseTurns(s: State, callback: bool, reason: Option<nat>)
    ensures Turns(s, Close(s, callback, reason),
                  if !s.my.closing && CanClose(s) then Begins(reason, if callback then [s.log.registered] else [])
                  else Stays)
  {
  }

  lemma DestroyTurns(s: State)
    ensures Turns(s, DestroyRest(s),
                  if s.my.closing then Joins else if CanClose(s) then Begins(None, [s.log.registered]) else Stays)
  {
    hide Close;
    CloseTurns(s, true, None);
  }

  lemma FinishTurns(s: State, n: nat)
    requires s.my.port.Some? || s.my.closing
    ensures Turns(s, FinishClose(s, n), Ends(if s.my.port.Some? then s.my.port.value else n))
  {
  }

  lemma SettleTurns(s: State, q: nat, ok: bool)
    ensures Turns(s, Settle(s, q, ok),
                  if s.my.port != Some(q) then Stays
                  else if ok || q !in s.world.openPorts then Ends(q) else Reverts)
  {
    hide FinishClose;
    if s.my.port == Some(q) { FinishTurns(s, q); }
  }

  lemma RefusedTurns(s: State, canceled: bool)
    ensures Turns(s, ReadRefused(s, canceled), if !canceled && IsOpen(s) then Begins(Some(0), []) else Stays)
  {
    hide Close;
    CloseTurns(s.(my := s.my.(readPort := if s.my.readPort == s.my.port then None else s.my.readPort)), false, Some(0));
  }

  lemma ReadTurns(s: State, start: Start)
    ensures Turns(s, Read(s, start),
                  if IsOpen(s) && s.my.readPort != s.my.port && start == Refused(false) then Begins(Some(0), [])
                  else Stays)
  {
    hide ReadRefused;
    if start.Refused? { RefusedTurns(Asked(s.(my := s.my.(readRequested := true))), start.canceled); }
  }

  lemma ResumeTurns(s: State, start: Start)
    ensures Turns(s, Resume(s, start),
                  if !s.my.destroyed && IsOpen(s) && s.my.readRequested && s.my.readPort != s.my.port
                     && start == Refused(false) then Begins(Some(0), [])
                  else Stays)
  {
    hide Read;
    ReadTurns(SendWaiting(s), start);
  }

  /** Exactly which events begin a close, end it or take it back, and what they leave. */
  lemma CloseIsCaused(s: State, e: Event)
    ensures Turns(s, Step(s, e), TurnOf(s, e))
  {
    hide Turns, TurnOf, Close, OnClose, Destroy, DestroyRest, Settle, Opened, OpenFailed, Read, Return;
    match e
    case EOpened(live) => OpenedTurns(s, live);
    case EOpenFailed => OpenFailedTurns(s);
    case EClose(callback) => CloseCallTurns(s, callback);
    case ECloseSettled(_, _) => SettledTurns(s, e);
    case ECancelSettled(_, _) => SettledTurns(s, e);
    case EOnClose(q, reason) => OnCloseTurns(s, q, reason);
    case EDestroy => DestroyCallTurns(s);
    case ERead(start) => ReadCallTurns(s, start);
    case EReadResolved(_, _, _) => AnswerTurns(s, e);
    case EReadRejected(_, _, _) => AnswerTurns(s, e);
    case EWriteSettled(_, _, _) => WriteTurns(s, e);
    case EReturn(start) => ReturnTurns(s, start);
    case _ => OtherTurns(s, e);
  }

  lemma OpenedTurns(s: State, live: bool)
    ensures Turns(s, Opened(s, live), TurnOf(s, EOpened(live)))
  {
  }

  lemma OpenFailedTurns(s: State)
    ensures Turns(s, OpenFailed(s), TurnOf(s, EOpenFailed))
  {
    hide FinishClose;
    if Concludes(s) && s.my.closing {
      FinishTurns(FailWaiting(s.(my := s.my.(opening := false), world := s.world.(opening := None))),
                  s.world.opening.value);
    }
  }

  lemma CloseCallTurns(s: State, callback: bool)
    ensures Turns(s, Close(s, callback, None), TurnOf(s, EClose(callback)))
  {
    hide Close, Turns;
    CloseTurns(s, callback, None);
  }

  lemma SettledTurns(s: State, e: Event)
    requires e.ECloseSettled? || e.ECancelSettled?
    ensures Turns(s, Step(s, e), TurnOf(s, e))
  {
    hide Settle, Turns;
    var t := if e.ECloseSettled? then s.(world := s.world.(closes := s.world.closes - multiset{e.q}))
             else s.(world := s.world.(cancels := s.world.cancels - multiset{e.q}));
    SettleTurns(t, e.q, e.ok);
    FewerTurns(s, t, Settle(t, e.q, e.ok), TurnOf(s, e));
    NothingTurns(s, s);
  }

  /** A promise less makes no difference. */
  lemma FewerTurns(s: State, t: State, u: State, turn: Turn)
    requires t.my == s.my && t.log == s.log && t.world.closes <= s.world.closes
    requires turn.Stays? || turn.Ends? || turn.Reverts?
    ensures Turns(t, u, turn) ==> Turns(s, u, turn)
  {
  }

  lemma OnCloseTurns(s: State, q: nat, reason: Option<nat>)
    ensures Turns(s, OnClose(s, q, reason), TurnOf(s, EOnClose(q, reason)))
  {
    hide Close, FinishClose, Turns;
    CloseTurns(s, false, reason);
    NothingTurns(s, s);
    if s.my.port == Some(q) { FinishTurns(s, q); }
  }

  lemma NothingTurns(s: State, t: State)
    requires SameClosing(s, t) && t.log.closed == s.log.closed && t.world.closes <= s.world.closes
    ensures Turns(s, t, Stays)
  {
  }

  lemma DestroyCallTurns(s: State)
    ensures Turns(s, Destroy(s), TurnOf(s, EDestroy))
  {
    hide DestroyRest;
    DestroyTurns(FailWaiting(s.(my := s.my.(destroyed := true))));
  }

  lemma ReadCallTurns(s: State, start: Start)
    ensures Turns(s, Read(s, start), TurnOf(s, ERead(start)))
  {
    hide Read, Turns;
    ReadTurns(s, start);
  }

  lemma AnswerTurns(s: State, e: Event)
    requires e.EReadResolved? || e.EReadRejected?
    ensures Turns(s, Step(s, e), TurnOf(s, e))
  {
    hide Read, ReadRefused, Turns;
    NothingTurns(s, s);
    var t := Forget(s, e.q);
    ReadTurns(t, e.start);
    ForgetTurns(s, e.q, Read(t, e.start), TurnOf(s, e));
    if e.EReadRejected? {
      RefusedTurns(t, e.canceled);
      ForgetTurns(s, e.q, ReadRefused(t, e.canceled), TurnOf(s, e));
    } else {
      NothingTurns(s, Deliver(t, e.q, e.data));
    }
    NothingTurns(s, t);
  }

  lemma ForgetTurns(s: State, q: nat, t: State, turn: Turn)
    ensures Turns(Forget(s, q), t, turn) ==> Turns(s, t, turn)
  {
  }

  lemma WriteTurns(s: State, e: Event)
    requires e.EWriteSettled?
    ensures Turns(s, Step(s, e), TurnOf(s, e))
  {
    hide Close;
    CloseTurns(s.(world := s.world.(writes := s.world.writes - multiset{e.q})), false, Some(0));
  }

  lemma ReturnTurns(s: State, start: Start)
    ensures Turns(s, Return(s, start), TurnOf(s, EReturn(start)))
  {
    hide Turns, TurnOf, Resume, DestroyRest, FinishIfClosing;
    if s.frames == [] {
      NothingReturns(s, start);
    } else if Top(s) == Failing([]) || Top(s) == Announcing {
      ResumeReturns(s, start);
    } else if Top(s).Destroying? {
      DestroyReturns(s, start);
    } else if Top(s).FailedOpen? {
      FailedReturns(s, start);
    } else {
      CallbackReturns(s, start);
    }
  }

  lemma PopTurns(s: State, t: State, turn: Turn)
    requires s.frames != [] && Turns(Pop(s), t, turn)
    ensures Turns(s, t, turn)
  {
  }

  lemma NothingReturns(s: State, start: Start)
    requires s.frames == []
    ensures Turns(s, s, TurnOf(s, EReturn(start)))
  {
  }

  lemma ResumeReturns(s: State, start: Start)
    requires s.frames != [] && (Top(s) == Failing([]) || Top(s) == Announcing)
    ensures Turns(s, Resume(Pop(s), start), TurnOf(s, EReturn(start)))
  {
    hide Turns, Resume;
    ResumeTurns(Pop(s), start);
    PopTurns(s, Resume(Pop(s), start), TurnOf(s, EReturn(start)));
  }

  lemma DestroyReturns(s: State, start: Start)
    requires s.frames != [] && Top(s).Destroying?
    ensures Turns(s, DestroyRest(Pop(s)), TurnOf(s, EReturn(start)))
  {
    hide Turns, DestroyRest;
    DestroyTurns(Pop(s));
    PopTurns(s, DestroyRest(Pop(s)), TurnOf(s, EReturn(start)));
  }

  lemma FailedReturns(s: State, start: Start)
    requires s.frames != [] && Top(s).FailedOpen?
    ensures Turns(s, FinishIfClosing(Pop(s), Top(s).attempt), TurnOf(s, EReturn(start)))
  {
    hide Turns, FinishClose;
    NothingTurns(Pop(s), Pop(s));
    if s.my.closing { FinishTurns(Pop(s), Top(s).attempt); }
    PopTurns(s, FinishIfClosing(Pop(s), Top(s).attempt), TurnOf(s, EReturn(start)));
  }

  lemma CallbackReturns(s: State, start: Start)
    requires s.frames != [] && Top(s) != Failing([]) && Top(s) != Announcing
    requires !Top(s).Destroying? && !Top(s).FailedOpen?
    ensures Turns(s, Return(s, start), TurnOf(s, EReturn(start)))
  {
    hide Turns, Resume;
    NothingTurns(s, Return(s, start));
  }

  lemma OtherTurns(s: State, e: Event)
    requires e.EOpen? || e.EOnData? || e.EWrite? || e.EThrow? || e.EPortChanges?
    ensures Turns(s, Step(s, e), TurnOf(s, e))
  {
  }

  // ---- Opening -----------------------------------------------------------------------------------------

  predicate StartsOpening(s: State, e: Event) {
    e.EOpen? && !s.my.destroyed && !IsOpen(s) && !s.my.opening && !s.my.closing
  }

  /** Attempts, the port attached, and whether the stream has been destroyed. */
  predicate SameOpening(s: State, t: State) {
    && t.world.opens == s.world.opens && t.world.opening == s.world.opening && t.my.opening == s.my.opening
    && t.my.port == s.my.port && t.my.destroyed == s.my.destroyed
  }

  /** The port of a cancelled opening is closed: at once, or after the callback of the waiting write. */
  function Cancels(s: State, e: Event): multiset<nat> {
    if e.EOpened? && Concludes(s) && s.my.closing && s.my.waitingWrite.None? then multiset{s.world.opening.value}
    else if e.EReturn? && s.frames != [] && Top(s).Cancelling? then multiset{Top(s).attempt}
    else multiset{}
  }

  /** An attempt is made exactly when `open` finds nothing open or in progress; it ends exactly when
    its port arrives, which is attached, or with its failure; and a port is detached exactly when its
    connection ends. */
  ghost predicate OpensAs(s: State, t: State, e: Event) {
    && t.world.opens == s.world.opens + (if StartsOpening(s, e) then 1 else 0)
    && t.my.destroyed == (s.my.destroyed || e.EDestroy?)
    && (if StartsOpening(s, e) then t.my.opening && t.world.opening == Some(s.world.opens)
        else if Concludes(s) && (e.EOpened? || e.EOpenFailed?) then !t.my.opening && t.world.opening.None?
        else t.my.opening == s.my.opening && t.world.opening == s.world.opening)
    && (if Concludes(s) && e.EOpened? then t.my.port == s.world.opening
        else if EndsClose(s, e) then t.my.port.None?
        else t.my.port == s.my.port)
  }

  ghost predicate CancelsAs(s: State, t: State, e: Event) {
    t.world.cancels == (if e.ECancelSettled? && s.frames == [] then s.world.cancels - multiset{e.q} else s.world.cancels)
                       + Cancels(s, e)
  }

  lemma CloseKeepsOpening(s: State, callback: bool, reason: Option<nat>)
    ensures SameOpening(s, Close(s, callback, reason)) && SameOpening(s, DestroyRest(s))
  {
  }

  lemma FinishDetaches(s: State, n: nat)
    requires s.my.port.Some? || s.my.closing
    ensures var t := FinishClose(s, n); t.my.port.None? && SameOpening(s.(my := s.my.(port := None)), t)
  {
  }

  lemma SettleDetaches(s: State, q: nat, ok: bool)
    ensures var t := Settle(s, q, ok);
            SameOpening(if s.my.port == Some(q) && (ok || q !in s.world.openPorts) then s.(my := s.my.(port := None))
                        else s, t)
  {
    hide FinishClose;
    if s.my.port == Some(q) { FinishDetaches(s, q); }
  }

  lemma ReadKeepsOpening(s: State, start: Start)
    ensures SameOpening(s, Read(s, start))
    ensures start.Refused? ==> SameOpening(s, ReadRefused(s, start.canceled))
  {
    hide Close;
    var t := s.(my := s.my.(readPort := if s.my.readPort == s.my.port then None else s.my.readPort));
    CloseKeepsOpening(t, false, Some(0));
    CloseKeepsOpening(Asked(t.(my := t.my.(readRequested := true))), false, Some(0));
  }

  lemma ResumeKeepsOpening(s: State, start: Start)
    ensures SameOpening(s, Resume(s, start))
  {
    hide Read;
    ReadKeepsOpening(SendWaiting(s), start);
  }

  lemma OpenIsCaused(s: State, e: Event)
    requires s.my.opening <==> s.world.opening.Some?
    ensures OpensAs(s, Step(s, e), e)
  {
    hide OpensAs, Close, DestroyRest, Destroy, OnClose, OpenFailed, Opened, Open, Settle, Read, Return;
    match e
    case EOpen => OpenOpens(s);
    case EOpened(live) => OpenedOpens(s, live);
    case EOpenFailed => OpenFailedOpens(s);
    case EClose(callback) =>
      CloseKeepsOpening(s, callback, None);
      StillOpens(s, Step(s, e), e);
    case ECloseSettled(_, _) => SettledOpens(s, e);
    case ECancelSettled(_, _) => SettledOpens(s, e);
    case EOnClose(q, reason) => OnCloseOpens(s, q, reason);
    case EDestroy => DestroyOpens(s);
    case ERead(start) =>
      ReadKeepsOpening(s, start);
      StillOpens(s, Step(s, e), e);
    case EReadResolved(_, _, _) => AnswerOpens(s, e);
    case EReadRejected(_, _, _) => AnswerOpens(s, e);
    case EWriteSettled(q, _, _) =>
      CloseKeepsOpening(s.(world := s.world.(writes := s.world.writes - multiset{q})), false, Some(0));
      StillOpens(s, Step(s, e), e);
    case EReturn(start) => ReturnOpens(s, start);
    case _ => StillOpens(s, Step(s, e), e);
  }

  lemma StillOpens(s: State, t: State, e: Event)
    requires SameOpening(s, t) && !EndsClose(s, e)
    requires !e.EOpen? && !e.EOpened? && !e.EOpenFailed? && !e.EDestroy?
    ensures OpensAs(s, t, e)
  {
  }

  lemma OpenOpens(s: State)
    ensures OpensAs(s, Open(s), EOpen)
  {
  }

  lemma OpenedOpens(s: State, live: bool)
    ensures OpensAs(s, Opened(s, live), EOpened(live))
  {
  }

  lemma OpenFailedOpens(s: State)
    ensures OpensAs(s, OpenFailed(s), EOpenFailed)
  {
    hide FinishClose;
    if Concludes(s) && s.my.closing {
      FinishDetaches(FailWaiting(s.(my := s.my.(opening := false), world := s.world.(opening := None))),
                     s.world.opening.value);
    }
  }

  lemma SettledOpens(s: State, e: Event)
    requires e.ECloseSettled? || e.ECancelSettled?
    ensures OpensAs(s, Step(s, e), e)
  {
    hide Settle;
    SettleDetaches(if e.ECloseSettled? then s.(world := s.world.(closes := s.world.closes - multiset{e.q}))
                   else s.(world := s.world.(cancels := s.world.cancels - multiset{e.q})), e.q, e.ok);
  }

  lemma OnCloseOpens(s: State, q: nat, reason: Option<nat>)
    ensures OpensAs(s, OnClose(s, q, reason), EOnClose(q, reason))
  {
    hide Close, FinishClose;
    CloseKeepsOpening(s, false, reason);
    if s.my.port == Some(q) { FinishDetaches(s, q); }
  }

  lemma DestroyOpens(s: State)
    ensures OpensAs(s, Destroy(s), EDestroy)
  {
    hide DestroyRest;
    CloseKeepsOpening(FailWaiting(s.(my := s.my.(destroyed := true))), false, None);
  }

  lemma AnswerOpens(s: State, e: Event)
    requires e.EReadResolved? || e.EReadRejected?
    ensures OpensAs(s, Step(s, e), e)
  {
    hide Read, ReadRefused;
    ReadKeepsOpening(Forget(s, e.q), e.start);
    if e.EReadRejected? { ReadKeepsOpening(Forget(s, e.q), Refused(e.canceled)); }
  }

  lemma ReturnOpens(s: State, start: Start)
    ensures OpensAs(s, Return(s, start), EReturn(start))
  {
    hide Resume, DestroyRest, FinishClose;
    if s.frames != [] {
      ResumeKeepsOpening(Pop(s), start);
      CloseKeepsOpening(Pop(s), false, None);
      if Top(s).FailedOpen? && s.my.closing { FinishDetaches(Pop(s), Top(s).attempt); }
    }
  }

  lemma CancelIsCaused(s: State, e: Event)
    ensures CancelsAs(s, Step(s, e), e)
  {
    hide CancelsAs, Close, Destroy, OnClose, Opened, OpenFailed, Settle, Read, ReadResolved, ReadRejected, Return;
    match e
    case EOpened(live) => OpenedCancels(s, live);
    case EOpenFailed =>
      OpenFailedCancels(s);
      StillCancels(s, Step(s, e), e);
    case EClose(callback) =>
      CloseCancels(s, callback, None);
      StillCancels(s, Step(s, e), e);
    case ECloseSettled(_, _) => SettledCancels(s, e);
    case ECancelSettled(_, _) => SettledCancels(s, e);
    case EOnClose(q, reason) => OnCloseCancels(s, q, reason);
    case EDestroy => DestroyCancels(s);
    case ERead(start) =>
      ReadCancels(s, start);
      StillCancels(s, Step(s, e), e);
    case EReadResolved(_, _, _) => AnswerCancels(s, e);
    case EReadRejected(_, _, _) => AnswerCancels(s, e);
    case EWriteSettled(q, _, _) =>
      CloseCancels(s.(world := s.world.(writes := s.world.writes - multiset{q})), false, Some(0));
      StillCancels(s, Step(s, e), e);
    case EReturn(start) => ReturnCancels(s, start);
    case _ => StillCancels(s, Step(s, e), e);
  }

  lemma StillCancels(s: State, t: State, e: Event)
    requires t.world.cancels == s.world.cancels && !e.EOpened? && !e.ECancelSettled? && !e.EReturn?
    ensures CancelsAs(s, t, e)
  {
  }

  lemma OpenedCancels(s: State, live: bool)
    ensures CancelsAs(s, Opened(s, live), EOpened(live))
  {
  }

  lemma SettledCancels(s: State, e: Event)
    requires e.ECloseSettled? || e.ECancelSettled?
    ensures CancelsAs(s, Step(s, e), e)
  {
    hide Settle;
    SettleCancels(if e.ECloseSettled? then s.(world := s.world.(closes := s.world.closes - multiset{e.q}))
                  else s.(world := s.world.(cancels := s.world.cancels - multiset{e.q})), e.q, e.ok);
  }

  lemma OnCloseCancels(s: State, q: nat, reason: Option<nat>)
    ensures CancelsAs(s, OnClose(s, q, reason), EOnClose(q, reason))
  {
    hide Close, FinishClose;
    CloseCancels(s, false, reason);
    FinishCancels(s, q);
  }

  lemma DestroyCancels(s: State)
    ensures CancelsAs(s, Destroy(s), EDestroy)
  {
    hide DestroyRest;
    CloseCancels(FailWaiting(s.(my := s.my.(destroyed := true))), false, None);
  }

  lemma CloseCancels(s: State, callback: bool, reason: Option<nat>)
    ensures Close(s, callback, reason).world.cancels == DestroyRest(s).world.cancels == s.world.cancels
  {
  }

  lemma FinishCancels(s: State, n: nat)
    ensures FinishClose(s, n).world.cancels == s.world.cancels
  {
  }

  lemma SettleCancels(s: State, q: nat, ok: bool)
    ensures Settle(s, q, ok).world.cancels == s.world.cancels
  {
  }

  lemma OpenFailedCancels(s: State)
    ensures OpenFailed(s).world.cancels == s.world.cancels
  {
  }

  lemma ReadCancels(s: State, start: Start)
    ensures Read(s, start).world.cancels == s.world.cancels
    ensures start.Refused? ==> ReadRefused(s, start.canceled).world.cancels == s.world.cancels
  {
  }

  lemma AnswerCancels(s: State, e: Event)
    requires e.EReadResolved? || e.EReadRejected?
    ensures CancelsAs(s, Step(s, e), e)
  {
    hide Read, ReadRefused;
    ReadCancels(Forget(s, e.q), e.start);
    if e.EReadRejected? { ReadCancels(Forget(s, e.q), Refused(e.canceled)); }
  }

  lemma ReturnCancels(s: State, start: Start)
    ensures CancelsAs(s, Return(s, start), EReturn(start))
  {
    hide Resume, DestroyRest, FinishIfClosing;
    if s.frames != [] {
      ResumeCancels(Pop(s), start);
      CloseCancels(Pop(s), false, None);
      if Top(s).FailedOpen? { FinishIfCancels(Pop(s), Top(s).attempt); }
    }
  }

  lemma ResumeCancels(s: State, start: Start)
    ensures Resume(s, start).world.cancels == s.world.cancels
  {
    hide Read;
    ReadCancels(SendWaiting(s), start);
  }

  lemma FinishIfCancels(s: State, n: nat)
    ensures FinishIfClosing(s, n).world.cancels == s.world.cancels
  {
  }

  // ---- Reading -----------------------------------------------------------------------------------------

  /** Data comes from the current port while it is open. */
  predicate Delivers(s: State, e: Event) {
    && IsOpen(s) && (e.EOnData? || (e.EReadResolved? && Expected(s, e))) && s.my.port == Some(e.q)
  }

  predicate SameReading(s: State, t: State) {
    && t.log.pushed == s.log.pushed && t.log.asked == s.log.asked
    && t.my.readRequested == s.my.readRequested && t.world.requests == s.world.requests
  }

  /** The requests to ports once `e` has answered one. */
  function Unanswered(s: State, e: Event): multiset<nat> {
    if (e.EReadResolved? || e.EReadRejected?) && Expected(s, e) then s.world.requests - multiset{e.q}
    else s.world.requests
  }

  /** Data is pushed exactly when it comes from the current port while that is open, and is then no
    longer requested; it is requested by `_read`, and by the end of a connection; and the port is
    asked exactly when `_read` finds it open and not already reading. */
  ghost predicate ReadsAs(s: State, t: State, e: Event) {
    && t.log.pushed == s.log.pushed + (if Delivers(s, e) then [(e.q, e.data)] else [])
    && t.my.readRequested == (!Delivers(s, e) && (s.my.readRequested || Reads(s, e) || EndsClose(s, e)))
    && t.world.requests
       == Unanswered(s, e)
          + (if Asks(s, e) && Answer(e).Requested? then multiset{s.my.port.value} else multiset{})
    && (Asks(s, e) ==> t.log.asked == s.my.port)
    && (!Asks(s, e) && !Delivers(s, e) ==> t.log.asked == s.log.asked)
  }

  lemma CloseKeepsReading(s: State, callback: bool, reason: Option<nat>)
    ensures SameReading(s, Close(s, callback, reason)) && SameReading(s, DestroyRest(s))
  {
  }

  lemma FinishRequests(s: State, n: nat)
    requires s.my.port.Some? || s.my.closing
    ensures SameReading(s.(my := s.my.(readRequested := true)), FinishClose(s, n))
  {
  }

  lemma SettleRequests(s: State, q: nat, ok: bool)
    ensures SameReading(s.(my := s.my.(readRequested := s.my.readRequested
                                                        || (s.my.port == Some(q) && (ok || q !in s.world.openPorts)))),
                        Settle(s, q, ok))
  {
    hide FinishClose;
    if s.my.port == Some(q) { FinishRequests(s, q); }
  }

  lemma RefusedKeepsReading(s: State, canceled: bool)
    ensures SameReading(s, ReadRefused(s, canceled))
  {
    hide Close;
    var t := s.(my := s.my.(readPort := if s.my.readPort == s.my.port then None else s.my.readPort));
    CloseKeepsReading(t, false, Some(0));
  }

  /** `_read` in state `s`. */
  ghost predicate AsksOnce(s: State, t: State, start: Start) {
    && t.log.pushed == s.log.pushed && t.my.readRequested
    && (if IsOpen(s) && s.my.readPort != s.my.port then
          && t.log.asked == s.my.port
          && t.world.requests == s.world.requests + (if start.Requested? then multiset{s.my.port.value} else multiset{})
        else t.log.asked == s.log.asked && t.world.requests == s.world.requests)
  }

  lemma ReadAsks(s: State, start: Start)
    ensures AsksOnce(s, Read(s, start), start)
  {
    hide ReadRefused;
    if start.Refused? { RefusedKeepsReading(Asked(s.(my := s.my.(readRequested := true))), start.canceled); }
  }

  lemma ResumeAsks(s: State, start: Start)
    ensures if !s.my.destroyed && IsOpen(s) && s.my.readRequested then AsksOnce(s, Resume(s, start), start)
            else SameReading(s, Resume(s, start))
  {
    hide Read;
    ReadAsks(SendWaiting(s), start);
  }

  lemma ReadIsCaused(s: State, e: Event)
    ensures ReadsAs(s, Step(s, e), e)
  {
    hide ReadsAs, Close, DestroyRest, Destroy, OnClose, OpenFailed, Opened, Settle, Read, ReadResolved, ReadRejected, Return;
    match e
    case EOpenFailed => OpenFailedReads(s);
    case EClose(callback) =>
      CloseKeepsReading(s, callback, None);
      StillReads(s, Step(s, e), e);
    case ECloseSettled(_, _) => SettledReads(s, e);
    case ECancelSettled(_, _) => SettledReads(s, e);
    case EOnClose(q, reason) => OnCloseReads(s, q, reason);
    case EDestroy => DestroyReads(s);
    case ERead(start) => ReadCallReads(s, start);
    case EReadResolved(q, data, start) => ResolvedReads(s, q, data, start);
    case EReadRejected(q, canceled, start) => RejectedReads(s, q, canceled, start);
    case EOnData(q, data) => HookReads(s, q, data);
    case EWriteSettled(q, _, _) =>
      CloseKeepsReading(s.(world := s.world.(writes := s.world.writes - multiset{q})), false, Some(0));
      StillReads(s, Step(s, e), e);
    case EReturn(start) => ReturnReads(s, start);
    case EOpened(live) => OpenedReads(s, live);
    case _ => StillReads(s, Step(s, e), e);
  }

  lemma StillReads(s: State, t: State, e: Event)
    requires !Reads(s, e) && !Delivers(s, e) && Unanswered(s, e) == s.world.requests
    requires SameReading(if EndsClose(s, e) then s.(my := s.my.(readRequested := true)) else s, t)
    ensures ReadsAs(s, t, e)
  {
    hide EndsClose, Reads, Delivers, Unanswered;
  }

  /** `_read` is called in state `u`. */
  lemma NowReads(s: State, u: State, t: State, e: Event)
    requires Reads(s, e) && !Delivers(s, e) && AsksOnce(u, t, Answer(e))
    requires u.my.port == s.my.port && (u.my.readPort == s.my.port <==> s.my.readPort == s.my.port) && IsOpen(u) == IsOpen(s)
    requires u.world.requests == Unanswered(s, e) && u.log == s.log
    ensures ReadsAs(s, t, e)
  {
    hide EndsClose, Reads, Delivers, Unanswered;
  }

  lemma OpenedReads(s: State, live: bool)
    ensures ReadsAs(s, Opened(s, live), EOpened(live))
  {
  }

  lemma OpenFailedReads(s: State)
    ensures ReadsAs(s, OpenFailed(s), EOpenFailed)
  {
    hide FinishClose, ReadsAs;
    if Concludes(s) && s.my.closing {
      FinishRequests(FailWaiting(s.(my := s.my.(opening := false), world := s.world.(opening := None))),
                     s.world.opening.value);
    }
    StillReads(s, OpenFailed(s), EOpenFailed);
  }

  lemma SettledReads(s: State, e: Event)
    requires e.ECloseSettled? || e.ECancelSettled?
    ensures ReadsAs(s, Step(s, e), e)
  {
    hide Settle, ReadsAs;
    SettleRequests(if e.ECloseSettled? then s.(world := s.world.(closes := s.world.closes - multiset{e.q}))
                   else s.(world := s.world.(cancels := s.world.cancels - multiset{e.q})), e.q, e.ok);
    StillReads(s, Step(s, e), e);
  }

  lemma OnCloseReads(s: State, q: nat, reason: Option<nat>)
    ensures ReadsAs(s, OnClose(s, q, reason), EOnClose(q, reason))
  {
    hide Close, FinishClose, ReadsAs;
    CloseKeepsReading(s, false, reason);
    if s.my.port == Some(q) { FinishRequests(s, q); }
    StillReads(s, OnClose(s, q, reason), EOnClose(q, reason));
  }

  lemma DestroyReads(s: State)
    ensures ReadsAs(s, Destroy(s), EDestroy)
  {
    hide DestroyRest;
    CloseKeepsReading(FailWaiting(s.(my := s.my.(destroyed := true))), false, None);
  }

  lemma ReadCallReads(s: State, start: Start)
    ensures ReadsAs(s, Read(s, start), ERead(start))
  {
    hide Read;
    ReadAsks(s, start);
  }

  lemma ResolvedReads(s: State, q: nat, data: Bytes, start: Start)
    ensures ReadsAs(s, ReadResolved(s, q, data, start), EReadResolved(q, data, start))
  {
    hide Read, ReadsAs;
    var u, e := Forget(s, q), EReadResolved(q, data, start);
    ReadAsks(u, start);
    if Reads(s, e) {
      NowReads(s, u, Read(u, start), e);
    } else if Delivers(s, e) {
      DataReads(s, e, ReadResolved(s, q, data, start));
    } else {
      AnswerReads(s, e, ReadResolved(s, q, data, start));
    }
  }

  lemma AnswerReads(s: State, e: Event, t: State)
    requires (e.EReadResolved? || e.EReadRejected?) && !Reads(s, e) && !Delivers(s, e)
    requires SameReading(if Expected(s, e) then Forget(s, e.q) else s, t)
    ensures ReadsAs(s, t, e)
  {
    AnswersEndNothing(s, e);
    hide Reads, Delivers, EndsClose;
  }

  lemma AnswersEndNothing(s: State, e: Event)
    requires e.EReadResolved? || e.EReadRejected?
    ensures !EndsClose(s, e)
  {
  }

  lemma RejectedReads(s: State, q: nat, canceled: bool, start: Start)
    ensures ReadsAs(s, ReadRejected(s, q, canceled, start), EReadRejected(q, canceled, start))
  {
    hide Read, ReadRefused, ReadsAs;
    var u, e := Forget(s, q), EReadRejected(q, canceled, start);
    ReadAsks(u, start);
    RefusedKeepsReading(u, canceled);
    if Reads(s, e) {
      NowReads(s, u, Read(u, start), e);
    } else {
      AnswerReads(s, e, ReadRejected(s, q, canceled, start));
    }
  }

  lemma DataReads(s: State, e: Event, t: State)
    requires Delivers(s, e) && t == Deliver(if e.EReadResolved? then Forget(s, e.q) else s, e.q, e.data)
    ensures ReadsAs(s, t, e)
  {
  }

  lemma HookReads(s: State, q: nat, data: Bytes)
    ensures ReadsAs(s, OnData(s, q, data), EOnData(q, data))
  {
    hide ReadsAs;
    var e := EOnData(q, data);
    if Delivers(s, e) { DataReads(s, e, OnData(s, q, data)); } else { StillReads(s, s, e); }
  }

  lemma ReturnReads(s: State, start: Start)
    ensures ReadsAs(s, Return(s, start), EReturn(start))
  {
    hide Resume, DestroyRest, FinishClose, ReadsAs;
    var t, e := Return(s, start), EReturn(start);
    if s.frames != [] {
      ResumeAsks(Pop(s), start);
      CloseKeepsReading(Pop(s), false, None);
      if Top(s).FailedOpen? && s.my.closing { FinishRequests(Pop(s), Top(s).attempt); }
    }
    if Reads(s, e) { NowReads(s, Pop(s), t, e); } else { StillReads(s, t, e); }
  }

  // ---- In every run ------------------------------------------------------------------------------------

  /** Exactly which events begin and end a close, open, attach and cancel a port, deliver data and ask
    for it, in every state that can be reached. */
  lemma {:induction false} EventsAreCaused(events: seq<Event>, e: Event)
    ensures var s, t := Run(events), Run(events + [e]);
            Turns(s, t, TurnOf(s, e)) && OpensAs(s, t, e) && CancelsAs(s, t, e) && ReadsAs(s, t, e)
  {
    hide Run, Step, Inv, Turns, TurnOf, OpensAs, CancelsAs, ReadsAs;
    Safety(events);
    OpeningIsKnown(Run(events));
    RunSnoc(events, e);
    CloseIsCaused(Run(events), e);
    OpenIsCaused(Run(events), e);
    CancelIsCaused(Run(events), e);
    ReadIsCaused(Run(events), e);
  }

  lemma OpeningIsKnown(s: State)
    requires Inv(s)
    ensures s.my.opening <==> s.world.opening.Some?
  {
    hide Frames, Callbacks, Closes, Requests;
  }
}
