/** The life cycle of a SerialPortStream as a transition system.

  Listeners and callbacks of the application run inside the stream's methods.  While one runs, the
  method that called it waits in a frame; the application may call the stream again, return or throw.
  Every event is one stretch of code between two such points. */
module Lifecycle {
  import opened Common

  /** The stream's own fields.  Ports are numbered by the `open` call that asked for them, writes in
    the order in which Node hands them over; a reason is a number, too. */
  datatype Fields = Fields(
    opening: bool, closing: bool, destroyed: bool, port: Option<nat>,
    readRequested: bool, readPort: Option<nat>, waitingWrite: Option<nat>,
    closeCallbacks: seq<nat>, closeError: Option<nat>)

  /** A method of the stream that waits for application code, and what it has still to do. */
  datatype Frame =
    | Finishing(callbacks: seq<nat>)   // `_finishClose`: after 'close', or after a callback
    | Failing(callbacks: seq<nat>)     // `_closeFailed`: after a callback, or after 'error'
    | Announcing                       // `open`: after 'open' and the open callback
    | Cancelling(attempt: nat)         // `open`: after failing the waiting write, before port.close()
    | FailedOpen(attempt: nat)         // `open`: after failing the waiting write, before finishing
    | Destroying                       // `_destroy`: after failing the waiting write
  {
    function Callbacks(): seq<nat> { if Finishing? || Failing? then callbacks else [] }
  }

  /** The binding: which ports say they are open, and which promises are unsettled. */
  datatype World = World(
    opens: nat, openPorts: set<nat>, opening: Option<nat>,
    closes: multiset<nat>, cancels: multiset<nat>, requests: multiset<nat>, writes: multiset<nat>)

  /** Callbacks registered, run, and lost to an exception; the attempt or connection of every
    'close' event; the connection of every chunk pushed; the writes handed over, those given to a
    port, with the port, and those failed for want of one; and the port that has been asked for the
    data now requested. */
  datatype Log = Log(
    registered: nat, ran: seq<nat>, dropped: seq<nat>, closed: seq<nat>, pushed: seq<(nat, Bytes)>,
    handed: nat, sent: seq<(nat, nat)>, failed: seq<nat>, asked: Option<nat>)

  const NOTHING: Log := Log(0, [], [], [], [], 0, [], [], None)

  datatype State = State(my: Fields, frames: seq<Frame>, world: World, log: Log)

  function Init(): State {
    State(Fields(false, false, false, None, false, None, None, [], None), [],
          World(0, {}, None, multiset{}, multiset{}, multiset{}, multiset{}), NOTHING)
  }

  predicate IsOpen(s: State) {
    s.my.port.Some? && s.my.port.value in s.world.openPorts && !s.my.closing
  }

  function Push(s: State, f: Frame): State { s.(frames := s.frames + [f]) }

  function Pop(s: State): State
    requires s.frames != []
  {
    s.(frames := s.frames[..|s.frames| - 1])
  }

  function Top(s: State): Frame
    requires s.frames != []
  {
    s.frames[|s.frames| - 1]
  }

  function RunCallback(s: State, id: nat): State { s.(log := s.log.(ran := s.log.ran + [id])) }

  /** `_failWaitingWrite` up to the callback of the write. */
  function FailWaiting(s: State): State {
    match s.my.waitingWrite
    case None => s
    case Some(w) => s.(my := s.my.(waitingWrite := None), log := s.log.(failed := s.log.failed + [w]))
  }

  // ---- Closing -------------------------------------------------------------------------------------

  /** `_finishClose` up to emitting 'close'; `attempt` is the opening that has failed, if one has. */
  function FinishClose(s: State, attempt: nat): State {
    if s.my.port.None? && !s.my.closing then s
    else
      Push(s.(my := s.my.(port := None, closing := false, readPort := None, readRequested := true,
                          closeError := None, closeCallbacks := []),
              log := s.log.(closed := s.log.closed + [if s.my.port.Some? then s.my.port.value else attempt])),
           Finishing(s.my.closeCallbacks))
  }

  /** `_closeFailed` up to its first callback, or up to emitting 'error'. */
  function CloseFailed(s: State, q: nat): State {
    if s.my.port != Some(q) then s
    else if q !in s.world.openPorts then FinishClose(s, q)
    else
      var callbacks := s.my.closeCallbacks;
      var t := s.(my := s.my.(closing := false, closeError := None, closeCallbacks := []));
      if callbacks == [] then Push(t, Failing([]))
      else Push(RunCallback(t, callbacks[0]), Failing(callbacks[1..]))
  }

  /** `close`; a callback gets the next number. */
  function Close(s: State, callback: bool, reason: Option<nat>): State {
    if s.my.closing || (!IsOpen(s) && !s.my.opening) then s     // reported asynchronously
    else
      s.(my := s.my.(closing := true, closeError := reason,
                     closeCallbacks := s.my.closeCallbacks + (if callback then [s.log.registered] else [])),
         log := s.log.(registered := s.log.registered + (if callback then 1 else 0)),
         world := if s.my.opening || s.my.port.None? then s.world
                  else s.world.(closes := s.world.closes + multiset{s.my.port.value}))
  }

  /** What settles next does so from the event loop, with no method waiting. */
  function Settle(s: State, q: nat, ok: bool): State {
    if !ok then CloseFailed(s, q) else if s.my.port == Some(q) then FinishClose(s, q) else s
  }

  /** The promise of `port.close()` settles. */
  function CloseSettled(s: State, q: nat, ok: bool): State {
    if s.frames != [] || q !in s.world.closes then s
    else Settle(s.(world := s.world.(closes := s.world.closes - multiset{q})), q, ok)
  }

  /** The same for a port that arrived after its opening had been cancelled. */
  function CancelSettled(s: State, q: nat, ok: bool): State {
    if s.frames != [] || q !in s.world.cancels then s
    else Settle(s.(world := s.world.(cancels := s.world.cancels - multiset{q})), q, ok)
  }

  /** The `onClose` hook of port `q`. */
  function OnClose(s: State, q: nat, reason: Option<nat>): State {
    if s.my.port != Some(q) then s
    else if q in s.world.openPorts then Close(s, false, reason)
    else FinishClose(s, q)
  }

  /** `_destroy` after failing the waiting write. */
  function DestroyRest(s: State): State {
    if s.my.closing then
      s.(my := s.my.(closeCallbacks := s.my.closeCallbacks + [s.log.registered]),
         log := s.log.(registered := s.log.registered + 1))
    else if IsOpen(s) || s.my.opening then Close(s, true, None)
    else s.(log := s.log.(registered := s.log.registered + 1, ran := s.log.ran + [s.log.registered]))
  }

  /** `_destroy`, which Node calls once. */
  function Destroy(s: State): State {
    if s.my.destroyed then s
    else
      var t := FailWaiting(s.(my := s.my.(destroyed := true)));
      if s.my.waitingWrite.Some? then Push(t, Destroying) else DestroyRest(t)
  }

  // ---- Opening -------------------------------------------------------------------------------------

  function Open(s: State): State {
    if s.my.destroyed || IsOpen(s) || s.my.opening || s.my.closing then s     // reported asynchronously
    else s.(my := s.my.(opening := true),
            world := s.world.(opens := s.world.opens + 1, opening := Some(s.world.opens)))
  }

  function CancelPort(s: State, n: nat): State {
    s.(world := s.world.(cancels := s.world.cancels + multiset{n}))
  }

  /** The binding delivers the port; `live` says what its `isOpen` reads. */
  function Opened(s: State, live: bool): State {
    if s.frames != [] || s.world.opening.None? then s
    else
      var n := s.world.opening.value;
      var t := s.(my := s.my.(opening := false, port := Some(n)),
                  world := s.world.(opening := None,
                                    openPorts := if live then s.world.openPorts + {n} else s.world.openPorts));
      if !s.my.closing then Push(t, Announcing)
      else if s.my.waitingWrite.Some? then Push(FailWaiting(t), Cancelling(n))
      else CancelPort(t, n)
  }

  function FinishIfClosing(s: State, n: nat): State { if s.my.closing then FinishClose(s, n) else s }

  function OpenFailed(s: State): State {
    if s.frames != [] || s.world.opening.None? then s
    else
      var n := s.world.opening.value;
      var t := FailWaiting(s.(my := s.my.(opening := false), world := s.world.(opening := None)));
      if s.my.waitingWrite.Some? then Push(t, FailedOpen(n)) else FinishIfClosing(t, n)
  }

  // ---- Reading and writing ---------------------------------------------------------------------------

  /** How `startReading` ends, or that the binding has none and a read request is issued. */
  datatype Start = Granted | Refused(canceled: bool) | Requested

  /** `_readError` for the current connection. */
  function ReadRefused(s: State, canceled: bool): State {
    var t := s.(my := s.my.(readPort := if s.my.readPort == s.my.port then None else s.my.readPort));
    if !canceled && IsOpen(t) then Close(t, false, Some(0)) else t
  }

  /** The current port has been asked for data. */
  function Asked(s: State): State { s.(log := s.log.(asked := s.my.port)) }

  /** `_read`. */
  function Read(s: State, start: Start): State {
    var t := s.(my := s.my.(readRequested := true));
    if !IsOpen(s) || s.my.readPort == s.my.port then t
    else
      match start
      case Granted => Asked(t)
      case Refused(canceled) => ReadRefused(Asked(t), canceled)
      case Requested =>
        Asked(t).(my := t.my.(readPort := t.my.port),
                  world := t.world.(requests := t.world.requests + multiset{t.my.port.value}))
  }

  function Forget(s: State, q: nat): State {
    s.(my := s.my.(readPort := if s.my.readPort == Some(q) then None else s.my.readPort),
       world := s.world.(requests := s.world.requests - multiset{q}))
  }

  /** What was asked for has come, but for a request that is still to be answered. */
  function Deliver(s: State, q: nat, data: Bytes): State {
    s.(my := s.my.(readRequested := false),
       log := s.log.(pushed := s.log.pushed + [(q, data)],
                     asked := if s.my.readPort == s.my.port then s.my.port else None))
  }

  /** A read request to port `q` is answered. */
  function ReadResolved(s: State, q: nat, data: Bytes, start: Start): State {
    if s.frames != [] || q !in s.world.requests then s
    else
      var t := Forget(s, q);
      if t.my.port == Some(q) && IsOpen(t) then Deliver(t, q, data)
      else if IsOpen(t) then Read(t, start)
      else t
  }

  function ReadRejected(s: State, q: nat, canceled: bool, start: Start): State {
    if s.frames != [] || q !in s.world.requests then s
    else
      var t := Forget(s, q);
      if t.my.port == Some(q) then ReadRefused(t, canceled)
      else if IsOpen(t) then Read(t, start)
      else t
  }

  /** The `onData` hook of port `q`. */
  function OnData(s: State, q: nat, data: Bytes): State {
    if s.my.port == Some(q) && IsOpen(s) then Deliver(s, q, data) else s
  }

  /** `_write`. */
  function Write(s: State, w: nat): State {
    if !IsOpen(s) then s.(my := s.my.(waitingWrite := Some(w)))
    else s.(world := s.world.(writes := s.world.writes + multiset{s.my.port.value}),
            log := s.log.(sent := s.log.sent + [(w, s.my.port.value)]))
  }

  /** Node hands over the next write, but not while one is waiting. */
  function HandOver(s: State): State {
    if s.my.waitingWrite.Some? then s
    else Write(s.(log := s.log.(handed := s.log.handed + 1)), s.log.handed)
  }

  /** `_resumeIO` hands the waiting write to `_write`. */
  function SendWaiting(s: State): State {
    match s.my.waitingWrite
    case None => s
    case Some(w) => Write(s.(my := s.my.(waitingWrite := None)), w)
  }

  /** The promise of `port.write()` settles. */
  function WriteSettled(s: State, q: nat, ok: bool, canceled: bool): State {
    if s.frames != [] || q !in s.world.writes then s
    else
      var t := s.(world := s.world.(writes := s.world.writes - multiset{q}));
      if !ok && !canceled && t.my.port == Some(q) && IsOpen(t) then Close(t, false, Some(0)) else t
  }

  /** `_resumeIO`. */
  function Resume(s: State, start: Start): State {
    if s.my.destroyed || !IsOpen(s) then s
    else
      var t := SendWaiting(s);
      if t.my.readRequested then Read(t, start) else t
  }

  /** A port changes what its `isOpen` reads. */
  function PortChanges(s: State, q: nat, live: bool): State {
    if q >= s.world.opens then s
    else s.(world := s.world.(openPorts := if live then s.world.openPorts + {q} else s.world.openPorts - {q}))
  }

  // ---- Application code ------------------------------------------------------------------------------

  /** The listener or callback returns to the method that called it. */
  function Return(s: State, start: Start): State {
    if s.frames == [] then s
    else
      var t := Pop(s);
      match Top(s)
      case Finishing(callbacks) =>
        if callbacks == [] then t else Push(RunCallback(t, callbacks[0]), Finishing(callbacks[1..]))
      case Failing(callbacks) =>
        if callbacks == [] then Resume(t, start) else Push(RunCallback(t, callbacks[0]), Failing(callbacks[1..]))
      case Announcing => Resume(t, start)
      case Cancelling(n) => CancelPort(t, n)
      case FailedOpen(n) => FinishIfClosing(t, n)
      case Destroying => DestroyRest(t)
  }

  /** It throws: the method does nothing more. */
  function Throw(s: State): State {
    if s.frames == [] then s
    else Pop(s).(log := s.log.(dropped := s.log.dropped + Top(s).Callbacks()))
  }

  // ---- Runs ----------------------------------------------------------------------------------------

  datatype Event =
    | EOpen | EOpened(live: bool) | EOpenFailed
    | EClose(callback: bool) | ECloseSettled(q: nat, ok: bool) | ECancelSettled(q: nat, ok: bool)
    | EOnClose(q: nat, reason: Option<nat>) | EDestroy
    | ERead(start: Start) | EReadResolved(q: nat, data: Bytes, start: Start)
    | EReadRejected(q: nat, canceled: bool, start: Start) | EOnData(q: nat, data: Bytes)
    | EWrite | EWriteSettled(q: nat, ok: bool, canceled: bool)
    | EReturn(start: Start) | EThrow | EPortChanges(q: nat, live: bool)

  /** The promises settle from the event loop. */
  predicate Settles(e: Event) {
    || e.EOpened? || e.EOpenFailed? || e.ECloseSettled? || e.ECancelSettled?
    || e.EReadResolved? || e.EReadRejected? || e.EWriteSettled?
  }

  function Step(s: State, e: Event): State {
    match e
    case EOpen => Open(s)
    case EOpened(live) => Opened(s, live)
    case EOpenFailed => OpenFailed(s)
    case EClose(callback) => Close(s, callback, None)
    case ECloseSettled(q, ok) => CloseSettled(s, q, ok)
    case ECancelSettled(q, ok) => CancelSettled(s, q, ok)
    case EOnClose(q, reason) => OnClose(s, q, reason)
    case EDestroy => Destroy(s)
    case ERead(start) => Read(s, start)
    case EReadResolved(q, data, start) => ReadResolved(s, q, data, start)
    case EReadRejected(q, canceled, start) => ReadRejected(s, q, canceled, start)
    case EOnData(q, data) => OnData(s, q, data)
    case EWrite => HandOver(s)
    case EWriteSettled(q, ok, canceled) => WriteSettled(s, q, ok, canceled)
    case EReturn(start) => Return(s, start)
    case EThrow => Throw(s)
    case EPortChanges(q, live) => PortChanges(s, q, live)
  }

  /** The state after a sequence of calls, settled promises, hooks, returns and exceptions, in any
    order; an event that cannot happen changes nothing. */
  function Run(events: seq<Event>): State {
    if events == [] then Init() else Step(Run(events[..|events| - 1]), events[|events| - 1])
  }

  lemma RunSnoc(events: seq<Event>, e: Event)
    ensures Run(events + [e]) == Step(Run(events), e)
  {
    assert (events + [e])[..|events|] == events;
  }

  // ---- Invariants ----------------------------------------------------------------------------------

  predicate Increasing(s: seq<nat>, bound: int) {
    && (forall i :: 0 <= i < |s| ==> s[i] < bound)
    && (forall i, j :: 0 <= i < j < |s| ==> s[i] < s[j])
  }

  /** The attempts that have been settled. */
  function Settled(s: State): int { if s.my.opening then s.world.opens - 1 else s.world.opens }

  ghost predicate Ports(s: State) {
    && (s.my.opening <==> s.world.opening.Some?)
    && (s.my.opening ==> s.world.opens > 0 && s.world.opening.value == s.world.opens - 1)
    && (s.my.port.Some? ==> s.my.port.value < Settled(s))
    && (forall q :: q in s.world.openPorts ==> q < s.world.opens)
  }

  /** The failed opening whose handler is waiting. */
  function Bottom(frames: seq<Frame>): Option<nat> {
    if frames != [] && frames[0].FailedOpen? then Some(frames[0].attempt) else None
  }

  /** The handlers of an opening run from the event loop, so they are at the bottom. */
  ghost predicate Frames(s: State) {
    && (forall i :: 0 < i < |s.frames| ==> !s.frames[i].Cancelling? && !s.frames[i].FailedOpen?)
    && (Bottom(s.frames).Some? ==>
          && Bottom(s.frames).value < Settled(s)
          && (s.my.port.Some? ==> s.my.port.value < Bottom(s.frames).value))
    && (s.frames != [] && s.frames[0].Cancelling? ==> s.frames[0].attempt < Settled(s))
  }

  /** Callbacks that waiting methods have still to run, oldest method first. */
  function Waiting(frames: seq<Frame>): seq<nat> {
    if frames == [] then [] else Waiting(frames[..|frames| - 1]) + frames[|frames| - 1].Callbacks()
  }

  /** All callbacks that have been registered and neither run nor lost. */
  function Unrun(s: State): seq<nat> { Waiting(s.frames) + s.my.closeCallbacks }

  function Ids(n: nat): seq<nat> { seq(n, i => i) }

  /** Every callback is run, lost or still to be run, exactly once; those to be run are in order of
    registration; and only a close in progress collects callbacks. */
  ghost predicate Callbacks(s: State) {
    && multiset(s.log.ran) + multiset(s.log.dropped) + multiset(Unrun(s)) == multiset(Ids(s.log.registered))
    && Increasing(Unrun(s), s.log.registered)
    && (!s.my.closing ==> s.my.closeCallbacks == [] && s.my.closeError.None?)
  }

  /** What the next 'close' event can belong to. */
  function Bound(s: State): int {
    if s.my.port.Some? then s.my.port.value
    else if Bottom(s.frames).Some? then Bottom(s.frames).value
    else Settled(s)
  }

  /** 'close' events belong to ever later attempts. */
  ghost predicate Closes(s: State) { Increasing(s.log.closed, Bound(s)) }

  ghost predicate Known(promises: multiset<nat>, bound: int) { forall q :: q in promises ==> q < bound }

  /** Promises belong to ports that have been delivered, with at most one read request per port. */
  ghost predicate Requests(s: State) {
    && Known(s.world.closes, Settled(s)) && Known(s.world.cancels, Settled(s))
    && Known(s.world.requests, Settled(s)) && Known(s.world.writes, Settled(s))
    && (forall q :: s.world.requests[q] <= 1)
    && (s.my.port.Some? && s.my.port.value in s.world.requests ==> s.my.readPort == s.my.port)
    && (s.my.readPort.Some? ==> s.my.readPort.value < Settled(s))
  }

  ghost predicate Inv(s: State) { Ports(s) && Frames(s) && Callbacks(s) && Closes(s) && Requests(s) }
}
