/** Events that arrive for a connection after it has been replaced. */
module LifecycleLate {
  import opened Common
  import opened Lifecycle
  import opened LifecycleSafety

  /** A hook, a settled promise or the answer to a read of a port that is not the current one.  The
    one exception is an answer that arrives while the current connection is open and may still have
    to start a read of its own. */
  predicate Late(s: State, e: Event) {
    match e
    case EOnClose(q, _) => s.my.port != Some(q)
    case EOnData(q, _) => s.my.port != Some(q)
    case ECloseSettled(q, _) => s.my.port != Some(q)
    case ECancelSettled(q, _) => s.my.port != Some(q)
    case EWriteSettled(q, _, _) => s.my.port != Some(q)
    case EReadResolved(q, _, _) => s.my.port != Some(q) && !Restarts(s, q)
    case EReadRejected(q, _, _) => s.my.port != Some(q) && !Restarts(s, q)
    case _ => false
  }

  predicate Restarts(s: State, q: nat) {
    && s.frames == [] && q in s.world.requests && IsOpen(s)
    && !(s.my.readRequested && s.my.readPort == s.my.port)
  }

  /** The run without its late events. */
  function Strip(events: seq<Event>): seq<Event> {
    if events == [] then []
    else
      var rest, e := events[..|events| - 1], events[|events| - 1];
      if Late(Run(rest), e) then Strip(rest) else Strip(rest) + [e]
  }

  /** The promises of the current port are the same; those of others may still be unsettled. */
  ghost predicate SameFor(port: Option<nat>, a: multiset<nat>, b: multiset<nat>) {
    a <= b && (port.Some? ==> a[port.value] == b[port.value])
  }

  /** Equal but for what belongs to replaced connections. */
  ghost predicate Alike(s: State, t: State) {
    && t.my == s.my.(readPort := t.my.readPort)
    && (s.my.port.Some? ==> (t.my.readPort == s.my.port <==> s.my.readPort == s.my.port))
    && t.frames == s.frames && t.log == s.log
    && t.world.opens == s.world.opens && t.world.openPorts == s.world.openPorts && t.world.opening == s.world.opening
    && SameFor(s.my.port, s.world.closes, t.world.closes) && SameFor(s.my.port, s.world.cancels, t.world.cancels)
    && SameFor(s.my.port, s.world.requests, t.world.requests) && SameFor(s.my.port, s.world.writes, t.world.writes)
  }

  /** A late event changes nothing that matters. */
  lemma LateStep(s: State, t: State, e: Event)
    requires Alike(s, t) && Late(s, e)
    ensures Alike(Step(s, e), t)
  {
    hide FinishClose, Close, Read, ReadRefused, SameFor;
    match e
    case EReadResolved(q, _, start) => LateAnswer(s, t, q, start);
    case EReadRejected(q, _, start) => LateAnswer(s, t, q, start);
    case EOnClose(_, _) =>
    case EOnData(_, _) =>
    case _ => LatePromise(s, t, e);
  }

  lemma LatePromise(s: State, t: State, e: Event)
    requires Alike(s, t) && (e.ECloseSettled? || e.ECancelSettled? || e.EWriteSettled?) && s.my.port != Some(e.q)
    ensures Alike(Step(s, e), t)
  {
    hide FinishClose, Close, SameFor;
    match e
    case ECloseSettled(q, _) => FewerSame(s.my.port, s.world.closes, t.world.closes, q);
    case ECancelSettled(q, _) => FewerSame(s.my.port, s.world.cancels, t.world.cancels, q);
    case EWriteSettled(q, _, _) => FewerSame(s.my.port, s.world.writes, t.world.writes, q);
    case _ =>
  }

  lemma FewerSame(port: Option<nat>, a: multiset<nat>, b: multiset<nat>, q: nat)
    requires SameFor(port, a, b) && port != Some(q)
    ensures SameFor(port, a - multiset{q}, b)
  {
  }

  lemma LateAnswer(s: State, t: State, q: nat, start: Start)
    requires Alike(s, t) && s.my.port != Some(q) && !Restarts(s, q)
    ensures var u := Forget(s, q);
            s.frames == [] && q in s.world.requests ==> Alike(u, t) && (IsOpen(u) ==> Read(u, start) == u)
  {
    hide SameFor, ReadRefused;
    FewerSame(s.my.port, s.world.requests, t.world.requests, q);
  }

  // Any other event does the same to both.

  lemma AlikeClose(s: State, t: State, callback: bool, reason: Option<nat>)
    requires Alike(s, t)
    ensures Alike(Close(s, callback, reason), Close(t, callback, reason))
  {
    hide SameFor;
    if s.my.port.Some? { MoreSame(s.my.port, s.world.closes, t.world.closes, s.my.port.value); }
  }

  lemma MoreSame(port: Option<nat>, a: multiset<nat>, b: multiset<nat>, q: nat)
    requires SameFor(port, a, b)
    ensures SameFor(port, a + multiset{q}, b + multiset{q}) && SameFor(port, a - multiset{q}, b - multiset{q})
  {
  }

  lemma Detached(port: Option<nat>, a: multiset<nat>, b: multiset<nat>)
    requires SameFor(port, a, b)
    ensures SameFor(None, a, b)
  {
  }

  lemma AlikeFinish(s: State, t: State, n: nat)
    requires Alike(s, t)
    ensures Alike(FinishClose(s, n), FinishClose(t, n))
  {
    hide SameFor;
    Detached(s.my.port, s.world.closes, t.world.closes);
    Detached(s.my.port, s.world.cancels, t.world.cancels);
    Detached(s.my.port, s.world.requests, t.world.requests);
    Detached(s.my.port, s.world.writes, t.world.writes);
  }

  lemma AlikeFailed(s: State, t: State, q: nat)
    requires Alike(s, t)
    ensures Alike(CloseFailed(s, q), CloseFailed(t, q))
  {
    hide SameFor, FinishClose;
    if s.my.port == Some(q) {
      if q !in s.world.openPorts {
        AlikeFinish(s, t, q);
      } else if s.my.closeCallbacks == [] {
        return;
      }
    }
  }

  lemma AlikeSettle(s: State, t: State, q: nat, ok: bool)
    requires Alike(s, t)
    ensures Alike(Settle(s, q, ok), Settle(t, q, ok))
  {
    AlikeFinish(s, t, q);
    AlikeFailed(s, t, q);
    SamePorts(s, t);
    hide Alike, FinishClose, CloseFailed;
  }

  lemma SamePorts(s: State, t: State)
    requires Alike(s, t)
    ensures t.my.port == s.my.port && IsOpen(t) == IsOpen(s)
  {
    hide SameFor;
  }

  lemma AlikeSettled(s: State, t: State, e: Event)
    requires Alike(s, t) && (e.ECloseSettled? || e.ECancelSettled?) && s.my.port == Some(e.q)
    ensures Alike(Step(s, e), Step(t, e))
  {
    hide Settle, SameFor;
    InSame(s.my.port, s.world.closes, t.world.closes, e.q);
    InSame(s.my.port, s.world.cancels, t.world.cancels, e.q);
    MoreSame(s.my.port, s.world.closes, t.world.closes, e.q);
    MoreSame(s.my.port, s.world.cancels, t.world.cancels, e.q);
    if e.ECloseSettled? {
      AlikeSettle(s.(world := s.world.(closes := s.world.closes - multiset{e.q})),
                  t.(world := t.world.(closes := t.world.closes - multiset{e.q})), e.q, e.ok);
    } else {
      AlikeSettle(s.(world := s.world.(cancels := s.world.cancels - multiset{e.q})),
                  t.(world := t.world.(cancels := t.world.cancels - multiset{e.q})), e.q, e.ok);
    }
  }

  lemma InSame(port: Option<nat>, a: multiset<nat>, b: multiset<nat>, q: nat)
    requires SameFor(port, a, b)
    ensures q in a ==> q in b
    ensures port == Some(q) ==> (q in a <==> q in b)
  {
  }

  lemma AlikeOnClose(s: State, t: State, q: nat, reason: Option<nat>)
    requires Alike(s, t)
    ensures Alike(OnClose(s, q, reason), OnClose(t, q, reason))
  {
    hide SameFor, FinishClose, Close;
    AlikeFinish(s, t, q);
    AlikeClose(s, t, false, reason);
  }

  lemma AlikeDestroyRest(s: State, t: State)
    requires Alike(s, t)
    ensures Alike(DestroyRest(s), DestroyRest(t))
  {
    hide SameFor, Close;
    AlikeClose(s, t, true, None);
  }

  lemma AlikeDestroy(s: State, t: State)
    requires Alike(s, t)
    ensures Alike(Destroy(s), Destroy(t))
  {
    hide SameFor, DestroyRest;
    AlikeDestroyRest(FailWaiting(s.(my := s.my.(destroyed := true))),
                     FailWaiting(t.(my := t.my.(destroyed := true))));
  }

  function Unnamed(s: State): State {
    s.(my := s.my.(readPort := if s.my.readPort == s.my.port then None else s.my.readPort))
  }

  lemma AlikeUnnamed(s: State, t: State)
    requires Alike(s, t) && s.my.port.Some?
    ensures Alike(Unnamed(s), Unnamed(t))
  {
    hide SameFor;
  }

  lemma AlikeRefused(s: State, t: State, canceled: bool)
    requires Alike(s, t) && s.my.port.Some?
    ensures Alike(ReadRefused(s, canceled), ReadRefused(t, canceled))
  {
    AlikeUnnamed(s, t);
    AlikeClose(Unnamed(s), Unnamed(t), false, Some(0));
    SamePorts(Unnamed(s), Unnamed(t));
    hide Alike, Close;
  }

  lemma AlikeRead(s: State, t: State, start: Start)
    requires Alike(s, t)
    ensures Alike(Read(s, start), Read(t, start))
  {
    hide SameFor, ReadRefused;
    if IsOpen(s) && start.Refused? {
      AlikeRefused(Asked(s.(my := s.my.(readRequested := true))), Asked(t.(my := t.my.(readRequested := true))),
                   start.canceled);
    }
    if s.my.port.Some? { MoreSame(s.my.port, s.world.requests, t.world.requests, s.my.port.value); }
  }

  lemma AlikeForget(s: State, t: State, q: nat)
    requires Alike(s, t)
    ensures Alike(Forget(s, q), Forget(t, q))
  {
    hide SameFor;
    MoreSame(s.my.port, s.world.requests, t.world.requests, q);
  }

  lemma AlikeAnswer(s: State, t: State, e: Event)
    requires Alike(s, t) && (e.EReadResolved? || e.EReadRejected?) && !Late(s, e)
    ensures Alike(Step(s, e), Step(t, e))
  {
    hide SameFor, Forget, Read, ReadRefused;
    InSame(s.my.port, s.world.requests, t.world.requests, e.q);
    AlikeForget(s, t, e.q);
    ForgetKeeps(s, e.q);
    AlikeRead(Forget(s, e.q), Forget(t, e.q), e.start);
    if e.EReadRejected? && s.my.port == Some(e.q) { AlikeRefused(Forget(s, e.q), Forget(t, e.q), e.canceled); }
  }

  lemma ForgetKeeps(s: State, q: nat)
    ensures Forget(s, q).my.port == s.my.port
  {
  }

  lemma AlikeWrite(s: State, t: State, w: nat)
    requires Alike(s, t)
    ensures Alike(Write(s, w), Write(t, w))
  {
    hide SameFor;
    if s.my.port.Some? { MoreSame(s.my.port, s.world.writes, t.world.writes, s.my.port.value); }
  }

  lemma AlikeWriteSettled(s: State, t: State, e: Event)
    requires Alike(s, t) && e.EWriteSettled? && s.my.port == Some(e.q)
    ensures Alike(Step(s, e), Step(t, e))
  {
    hide SameFor, Close;
    InSame(s.my.port, s.world.writes, t.world.writes, e.q);
    MoreSame(s.my.port, s.world.writes, t.world.writes, e.q);
    AlikeClose(s.(world := s.world.(writes := s.world.writes - multiset{e.q})),
               t.(world := t.world.(writes := t.world.writes - multiset{e.q})), false, Some(0));
  }

  lemma AlikeResume(s: State, t: State, start: Start)
    requires Alike(s, t)
    ensures Alike(Resume(s, start), Resume(t, start))
  {
    hide SameFor, SendWaiting, Read;
    AlikeSendWaiting(s, t);
    AlikeRead(SendWaiting(s), SendWaiting(t), start);
  }

  lemma AlikeSendWaiting(s: State, t: State)
    requires Alike(s, t)
    ensures Alike(SendWaiting(s), SendWaiting(t))
  {
    hide SameFor, Write;
    if s.my.waitingWrite.Some? {
      AlikeWrite(s.(my := s.my.(waitingWrite := None)), t.(my := t.my.(waitingWrite := None)), s.my.waitingWrite.value);
    }
  }

  lemma AlikeHandOver(s: State, t: State)
    requires Alike(s, t)
    ensures Alike(HandOver(s), HandOver(t))
  {
    hide SameFor, Write;
    AlikeWrite(s.(log := s.log.(handed := s.log.handed + 1)), t.(log := t.log.(handed := t.log.handed + 1)), s.log.handed);
  }

  /** A new port has no promises yet. */
  lemma AlikeAttached(s: State, t: State, live: bool)
    requires Inv(s) && Inv(t) && Alike(s, t) && s.world.opening.Some?
    ensures Alike(Attached(s, live), Attached(t, live))
  {
    hide Callbacks, Frames, Closes;
    var n := s.world.opening.value;
    assert n !in s.world.closes && n !in t.world.closes && n !in s.world.cancels && n !in t.world.cancels;
    assert n !in s.world.requests && n !in t.world.requests && n !in s.world.writes && n !in t.world.writes;
  }

  lemma AlikeCancelPort(s: State, t: State, n: nat)
    requires Alike(s, t)
    ensures Alike(CancelPort(s, n), CancelPort(t, n))
  {
    hide SameFor;
    MoreSame(s.my.port, s.world.cancels, t.world.cancels, n);
  }

  lemma AlikeOpened(s: State, t: State, live: bool)
    requires Inv(s) && Inv(t) && Alike(s, t)
    ensures Alike(Opened(s, live), Opened(t, live))
  {
    hide SameFor, Inv, CancelPort;
    if s.frames == [] && s.world.opening.Some? {
      AlikeAttached(s, t, live);
      AlikeCancelPort(Attached(s, live), Attached(t, live), s.world.opening.value);
    }
  }

  lemma AlikeOpenFailed(s: State, t: State)
    requires Alike(s, t)
    ensures Alike(OpenFailed(s), OpenFailed(t))
  {
    hide SameFor, FinishClose;
    if s.world.opening.Some? {
      AlikeFinish(FailWaiting(s.(my := s.my.(opening := false), world := s.world.(opening := None))),
                  FailWaiting(t.(my := t.my.(opening := false), world := t.world.(opening := None))),
                  s.world.opening.value);
    }
  }

  lemma AlikeReturn(s: State, t: State, start: Start)
    requires Alike(s, t)
    ensures Alike(Return(s, start), Return(t, start))
  {
    hide SameFor, Resume, FinishClose, CancelPort, DestroyRest;
    if s.frames != [] {
      match Top(s)
      case Finishing(_) =>
      case Failing(_) => AlikeResume(Pop(s), Pop(t), start);
      case Announcing => AlikeResume(Pop(s), Pop(t), start);
      case Cancelling(n) => AlikeCancelPort(Pop(s), Pop(t), n);
      case FailedOpen(n) => AlikeFinish(Pop(s), Pop(t), n);
      case Destroying => AlikeDestroyRest(Pop(s), Pop(t));
    }
  }

  lemma AlikeOther(s: State, t: State, e: Event)
    requires Alike(s, t) && (e.EOpen? || e.EOnData? || e.EThrow? || e.EPortChanges?)
    ensures Alike(Step(s, e), Step(t, e))
  {
    hide SameFor;
  }

  lemma AlikeStep(s: State, t: State, e: Event)
    requires Inv(s) && Inv(t) && Alike(s, t) && !Late(s, e)
    ensures Alike(Step(s, e), Step(t, e))
  {
    hide Inv, Alike, Close, Read, HandOver, Return, Destroy, OnClose, Opened, OpenFailed;
    match e
    case EOpened(live) => AlikeOpened(s, t, live);
    case EOpenFailed => AlikeOpenFailed(s, t);
    case EClose(callback) => AlikeClose(s, t, callback, None);
    case ECloseSettled(_, _) => AlikeSettled(s, t, e);
    case ECancelSettled(_, _) => AlikeSettled(s, t, e);
    case EOnClose(q, reason) => AlikeOnClose(s, t, q, reason);
    case EDestroy => AlikeDestroy(s, t);
    case ERead(start) => AlikeRead(s, t, start);
    case EReadResolved(_, _, _) => AlikeAnswer(s, t, e);
    case EReadRejected(_, _, _) => AlikeAnswer(s, t, e);
    case EWrite => AlikeHandOver(s, t);
    case EWriteSettled(_, _, _) => AlikeWriteSettled(s, t, e);
    case EReturn(start) => AlikeReturn(s, t, start);
    case _ => AlikeOther(s, t, e);
  }

  lemma AlikeSelf()
    ensures Alike(Init(), Init())
  {
  }

  lemma {:induction false} StripAlike(events: seq<Event>)
    ensures Alike(Run(events), Run(Strip(events)))
  {
    hide Inv, Step, Late, Alike;
    if events == [] {
      AlikeSelf();
    } else {
      var rest, e := events[..|events| - 1], events[|events| - 1];
      StripAlike(rest);
      if Late(Run(rest), e) {
        LateStep(Run(rest), Run(Strip(rest)), e);
      } else {
        Safety(rest);
        Safety(Strip(rest));
        AlikeStep(Run(rest), Run(Strip(rest)), e);
        RunSnoc(Strip(rest), e);
      }
    }
  }

  /** Late events of replaced connections do not interfere: without them the run has the same fields,
    emits the same, and delivers the same.  Only `_readPort` may still name a replaced port. */
  lemma {:induction false} LateEventsDoNothing(events: seq<Event>)
    ensures var s, t := Run(events), Run(Strip(events));
            && t.my == s.my.(readPort := t.my.readPort) && t.frames == s.frames && t.log == s.log
            && (s.my.port.Some? ==> (t.my.readPort == s.my.port <==> s.my.readPort == s.my.port))
  {
    hide Run, Strip;
    StripAlike(events);
  }

  /** The exception: an answer to a read of a replaced connection delivers nothing and closes nothing;
    it starts the read that the current connection is waiting for, and a failure of that start is
    the current connection's own. */
  lemma LateAnswerOnlyRestarts(s: State, e: Event)
    requires (e.EReadResolved? || e.EReadRejected?) && s.my.port != Some(e.q) && Restarts(s, e.q)
    ensures Step(s, e) == Read(Forget(s, e.q), e.start)
    ensures Step(s, e).log.pushed == s.log.pushed && Step(s, e).log.closed == s.log.closed
    ensures Step(s, e).my.port == s.my.port && (!e.start.Refused? ==> !Step(s, e).my.closing)
  {
    var u := Forget(s, e.q);
    assert IsOpen(u) && u.my.port != Some(e.q);
  }
}
