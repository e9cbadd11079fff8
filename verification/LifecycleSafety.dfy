/** Every event keeps the invariants of the life cycle. */
module LifecycleSafety {
  import opened Common
  import opened Lifecycle

  // ---- Sequences -------------------------------------------------------------------------------------

  lemma IncreasingSnoc(s: seq<nat>, bound: int, last: nat, next: int)
    requires Increasing(s, bound) && bound <= last < next
    ensures Increasing(s + [last], next)
  {
  }

  lemma IncreasingWider(s: seq<nat>, bound: int, next: int)
    requires Increasing(s, bound) && bound <= next
    ensures Increasing(s, next)
  {
  }

  lemma IncreasingWithout(a: seq<nat>, b: seq<nat>, c: seq<nat>, bound: int)
    requires Increasing(a + b + c, bound)
    ensures Increasing(a + c, bound)
  {
    var all, less := a + b + c, a + c;
    forall i | 0 <= i < |less| ensures less[i] == all[if i < |a| then i else i + |b|] {}
    forall i | 0 <= i < |less| ensures less[i] < bound { assert less[i] == all[if i < |a| then i else i + |b|]; }
    forall i, j | 0 <= i < j < |less| ensures less[i] < less[j] {
      assert less[i] == all[if i < |a| then i else i + |b|];
      assert less[j] == all[if j < |a| then j else j + |b|];
    }
  }

  lemma WaitingPush(frames: seq<Frame>, f: Frame)
    ensures Waiting(frames + [f]) == Waiting(frames) + f.Callbacks()
  {
    assert (frames + [f])[..|frames|] == frames;
  }

  lemma WaitingPop(frames: seq<Frame>)
    requires frames != []
    ensures Waiting(frames) == Waiting(frames[..|frames| - 1]) + frames[|frames| - 1].Callbacks()
  {
  }

  lemma IdsSnoc(n: nat)
    ensures Ids(n + 1) == Ids(n) + [n]
  {
  }

  // ---- Callbacks -------------------------------------------------------------------------------------

  /** A step that moves no callback. */
  lemma CallbacksStay(s: State, t: State)
    requires Callbacks(s) && Unrun(t) == Unrun(s)
    requires t.log.ran == s.log.ran && t.log.dropped == s.log.dropped && t.log.registered == s.log.registered
    requires !t.my.closing ==> t.my.closeCallbacks == [] && t.my.closeError.None?
    ensures Callbacks(t)
  {
  }

  /** `gone` leaves the callbacks to be run: it has been run, or it is lost. */
  lemma CallbacksLeave(s: State, t: State, before: seq<nat>, gone: seq<nat>, after: seq<nat>)
    requires Callbacks(s) && Unrun(s) == before + gone + after && Unrun(t) == before + after
    requires t.log.registered == s.log.registered
    requires || (t.log.ran == s.log.ran + gone && t.log.dropped == s.log.dropped)
             || (t.log.ran == s.log.ran && t.log.dropped == s.log.dropped + gone)
    requires !t.my.closing ==> t.my.closeCallbacks == [] && t.my.closeError.None?
    ensures Callbacks(t)
  {
    hide Increasing;
    IncreasingWithout(before, gone, after, s.log.registered);
  }

  /** A new callback waits behind all others. */
  lemma CallbacksJoin(s: State, t: State)
    requires Callbacks(s) && Unrun(t) == Unrun(s) + [s.log.registered] && t.log.registered == s.log.registered + 1
    requires t.log.ran == s.log.ran && t.log.dropped == s.log.dropped && t.my.closing
    ensures Callbacks(t)
  {
    hide Increasing;
    IdsSnoc(s.log.registered);
    IncreasingSnoc(Unrun(s), s.log.registered, s.log.registered, s.log.registered + 1);
  }

  /** A new callback is run at once. */
  lemma CallbacksRunNow(s: State, t: State)
    requires Callbacks(s) && Unrun(t) == Unrun(s) && t.log.registered == s.log.registered + 1
    requires t.log.ran == s.log.ran + [s.log.registered] && t.log.dropped == s.log.dropped
    requires !t.my.closing && t.my.closeCallbacks == [] && t.my.closeError.None?
    ensures Callbacks(t)
  {
    hide Increasing;
    IdsSnoc(s.log.registered);
    IncreasingWider(Unrun(s), s.log.registered, s.log.registered + 1);
  }

  // ---- Everything else -------------------------------------------------------------------------------

  ghost predicate Others(s: State) { Ports(s) && Frames(s) && Closes(s) && Requests(s) }

  /** What the other invariants depend on. */
  ghost predicate SamePlace(s: State, t: State) {
    && t.my.opening == s.my.opening && t.my.port == s.my.port && t.my.readPort == s.my.readPort
    && t.world.opens == s.world.opens && t.world.opening == s.world.opening && t.world.openPorts == s.world.openPorts
    && t.log.closed == s.log.closed
  }

  ghost predicate SamePromises(s: State, t: State) {
    && t.world.closes == s.world.closes && t.world.cancels == s.world.cancels
    && t.world.requests == s.world.requests && t.world.writes == s.world.writes
  }

  lemma OthersStay(s: State, t: State)
    requires Others(s) && SamePlace(s, t) && SamePromises(s, t)
    requires t.frames == s.frames || (t.frames != [] && t.frames[..|t.frames| - 1] == s.frames && Plain(Top(t)))
             || (s.frames != [] && s.frames[..|s.frames| - 1] == t.frames)
    ensures Others(t)
  {
    hide Increasing, Known;
    if |t.frames| > 0 && |s.frames| > 0 { assert t.frames[0] == s.frames[0]; }
    if Bottom(s.frames).Some? && Bottom(t.frames).None? && s.my.port.None? {
      IncreasingWider(s.log.closed, Bottom(s.frames).value, Settled(s));
    }
  }

  predicate Plain(f: Frame) { !f.Cancelling? && !f.FailedOpen? }

  lemma OthersReplace(s: State, t: State)
    requires Others(s) && SamePlace(s, t) && SamePromises(s, t)
    requires s.frames != [] && |t.frames| == |s.frames| && t.frames[..|s.frames| - 1] == s.frames[..|s.frames| - 1]
    requires Plain(Top(s)) && Plain(Top(t))
    ensures Others(t)
  {
    hide Increasing, Known;
    assert forall i :: 0 <= i < |s.frames| - 1 ==> t.frames[i] == s.frames[..|s.frames| - 1][i];
  }

  // ---- Closing -----------------------------------------------------------------------------------------

  /** `_finishClose` runs with a port attached, or for a failed opening that no 'close' belongs to. */
  lemma KeepFinishClose(s: State, n: nat)
    requires Inv(s)
    requires s.my.port.Some? || !s.my.closing
             || (Bottom(s.frames).None? && n < Settled(s) && Increasing(s.log.closed, n))
    ensures Inv(FinishClose(s, n))
  {
    hide Increasing, Known, Callbacks, Ports, Frames, Closes, Requests, Bottom, Settled;
    var t := FinishClose(s, n);
    if t != s {
      WaitingPush(s.frames, Finishing(s.my.closeCallbacks));
      CallbacksStay(s, t) by { assert Unrun(t) == Unrun(s); }
      DetachOthers(s, t, n);
    }
  }

  lemma DetachOthers(s: State, t: State, n: nat)
    requires Others(s) && (s.my.port.Some? || (Bottom(s.frames).None? && n < Settled(s) && Increasing(s.log.closed, n)))
    requires t == FinishClose(s, n) && t != s
    ensures Others(t)
  {
    hide Increasing, Known, Bottom;
    var f := Finishing(s.my.closeCallbacks);
    var last := if s.my.port.Some? then s.my.port.value else n;
    BottomPush(s.frames, f);
    BottomPlain(f);
    IncreasingSnoc(s.log.closed, last, last, Bound(t));
    FramesPush(s, t);
  }

  lemma BottomPlain(f: Frame)
    requires Plain(f)
    ensures Bottom([f]).None?
    ensures Bottom([]).None?
  {
  }

  lemma BottomPush(frames: seq<Frame>, f: Frame)
    ensures Bottom(frames + [f]) == if frames == [] then Bottom([f]) else Bottom(frames)
  {
    if frames != [] { assert (frames + [f])[0] == frames[0]; }
  }

  lemma FramesPush(s: State, t: State)
    requires Frames(s) && t.frames != [] && t.frames[..|t.frames| - 1] == s.frames && Plain(Top(t))
    requires Settled(t) == Settled(s) && (t.my.port.Some? ==> t.my.port == s.my.port)
    ensures Frames(t)
  {
    if s.frames != [] { assert t.frames[0] == s.frames[0]; }
    assert forall i :: 0 <= i < |s.frames| ==> t.frames[i] == s.frames[i];
  }

  lemma KeepCloseFailed(s: State, q: nat)
    requires Inv(s)
    ensures Inv(CloseFailed(s, q))
  {
    hide Inv, FinishClose, CloseFailed;
    if s.my.port != Some(q) {
      NotCurrent(s, q);
    } else if q !in s.world.openPorts {
      DeadPort(s, q);
      KeepFinishClose(s, q);
    } else {
      KeepRefusedClose(s, q);
    }
  }

  lemma NotCurrent(s: State, q: nat)
    requires s.my.port != Some(q)
    ensures CloseFailed(s, q) == s
  {
  }

  lemma DeadPort(s: State, q: nat)
    requires s.my.port == Some(q) && q !in s.world.openPorts
    ensures CloseFailed(s, q) == FinishClose(s, q)
  {
    hide FinishClose;
  }

  lemma KeepRefusedClose(s: State, q: nat)
    requires Inv(s) && s.my.port == Some(q) && q in s.world.openPorts
    ensures Inv(CloseFailed(s, q))
  {
    hide Increasing, Known, Callbacks, Ports, Frames, Closes, Requests, Waiting, Unrun;
    var t, callbacks := CloseFailed(s, q), s.my.closeCallbacks;
    assert t.frames[..|t.frames| - 1] == s.frames;
    OthersStay(s, t);
    RefusedUnrun(s, q);
    if callbacks == [] {
      CallbacksStay(s, t);
    } else {
      CallbacksLeave(s, t, Waiting(s.frames), [callbacks[0]], callbacks[1..]);
    }
  }

  lemma RefusedUnrun(s: State, q: nat)
    requires s.my.port == Some(q) && q in s.world.openPorts
    ensures var t, callbacks := CloseFailed(s, q), s.my.closeCallbacks;
            && (callbacks == [] ==> Unrun(t) == Unrun(s))
            && (callbacks != [] ==> Unrun(s) == Waiting(s.frames) + [callbacks[0]] + callbacks[1..]
                                    && Unrun(t) == Waiting(s.frames) + callbacks[1..])
  {
    hide Waiting;
    var t, callbacks := CloseFailed(s, q), s.my.closeCallbacks;
    WaitingPush(s.frames, Top(t));
    if callbacks != [] { Regroup(Waiting(s.frames), callbacks, []); }
    assert Waiting(s.frames) + [] == Waiting(s.frames);
    assert callbacks != [] ==> callbacks[1..] + [] == callbacks[1..];
  }

  lemma KeepSettle(s: State, q: nat, ok: bool)
    requires Inv(s)
    ensures Inv(Settle(s, q, ok))
  {
    hide Inv, FinishClose, CloseFailed;
    KeepCloseFailed(s, q);
    if s.my.port == Some(q) { KeepFinishClose(s, q); }
  }

  lemma KeepCloseSettled(s: State, q: nat, ok: bool)
    requires Inv(s)
    ensures Inv(CloseSettled(s, q, ok))
  {
    hide Inv, Settle;
    if q in s.world.closes {
      var t := s.(world := s.world.(closes := s.world.closes - multiset{q}));
      FewerPromises(s, t);
      KeepSettle(t, q, ok);
    }
  }

  lemma KeepCancelSettled(s: State, q: nat, ok: bool)
    requires Inv(s)
    ensures Inv(CancelSettled(s, q, ok))
  {
    hide Inv, Settle;
    if q in s.world.cancels {
      var t := s.(world := s.world.(cancels := s.world.cancels - multiset{q}));
      FewerPromises(s, t);
      KeepSettle(t, q, ok);
    }
  }

  lemma FewerPromises(s: State, t: State)
    requires Inv(s) && SamePlace(s, t) && t.my == s.my && t.frames == s.frames && t.log == s.log
    requires t.world.closes <= s.world.closes && t.world.cancels <= s.world.cancels
    requires t.world.requests == s.world.requests && t.world.writes <= s.world.writes
    ensures Inv(t)
  {
    hide Increasing, Callbacks;
    assert Unrun(t) == Unrun(s);
    CallbacksEmpty(s);
    CallbacksStay(s, t);
    assert forall q :: q in t.world.closes ==> q in s.world.closes;
    assert forall q :: q in t.world.cancels ==> q in s.world.cancels;
    assert forall q :: q in t.world.writes ==> q in s.world.writes;
  }

  lemma KeepClose(s: State, callback: bool, reason: Option<nat>)
    requires Inv(s)
    ensures Inv(Close(s, callback, reason))
  {
    hide Increasing, Callbacks, Frames;
    var t := Close(s, callback, reason);
    if t != s {
      CallbacksEmpty(s);
      if callback {
        assert Unrun(t) == Unrun(s) + [s.log.registered];
        CallbacksJoin(s, t);
      } else {
        assert Unrun(t) == Unrun(s);
        CallbacksStay(s, t);
      }
      assert Frames(t) by { FramesSame(s, t); }
    }
  }

  lemma CallbacksEmpty(s: State)
    requires Callbacks(s)
    ensures !s.my.closing ==> s.my.closeCallbacks == [] && s.my.closeError.None?
  {
  }

  lemma FramesSame(s: State, t: State)
    requires Frames(s) && t.frames == s.frames && Settled(t) == Settled(s) && t.my.port == s.my.port
    ensures Frames(t)
  {
  }

  lemma KeepOnClose(s: State, q: nat, reason: Option<nat>)
    requires Inv(s)
    ensures Inv(OnClose(s, q, reason))
  {
    hide Inv, FinishClose, Close;
    if s.my.port == Some(q) {
      KeepClose(s, false, reason);
      KeepFinishClose(s, q);
    }
  }

  lemma KeepDestroyRest(s: State)
    requires Inv(s)
    ensures Inv(DestroyRest(s))
  {
    hide Increasing, Callbacks, Ports, Frames, Closes, Requests, Close;
    if s.my.closing {
      var t := DestroyRest(s);
      assert Unrun(t) == Unrun(s) + [s.log.registered];
      CallbacksJoin(s, t);
      OthersStay(s, t);
    } else if IsOpen(s) || s.my.opening {
      KeepClose(s, true, None);
    } else {
      var t := DestroyRest(s);
      CallbacksEmpty(s);
      assert Unrun(t) == Unrun(s);
      CallbacksRunNow(s, t);
      OthersStay(s, t);
    }
  }

  lemma KeepDestroy(s: State)
    requires Inv(s)
    ensures Inv(Destroy(s))
  {
    hide Increasing, Callbacks, Ports, Frames, Closes, Requests, DestroyRest;
    if !s.my.destroyed {
      var t := FailWaiting(s.(my := s.my.(destroyed := true)));
      CallbacksEmpty(s);
      CallbacksStay(s, t) by { assert Unrun(t) == Unrun(s); }
      OthersStay(s, t);
      if s.my.waitingWrite.Some? { KeepPush(t, Destroying); } else { KeepDestroyRest(t); }
    }
  }

  /** A method without callbacks starts to wait. */
  lemma KeepPush(s: State, f: Frame)
    requires Inv(s) && Plain(f) && f.Callbacks() == []
    ensures Inv(Push(s, f))
  {
    hide Increasing, Callbacks, Ports, Frames, Closes, Requests;
    var t := Push(s, f);
    WaitingPush(s.frames, f);
    CallbacksEmpty(s);
    assert Waiting(s.frames) + [] == Waiting(s.frames);
    CallbacksStay(s, t) by { assert Unrun(t) == Unrun(s); }
    assert t.frames[..|t.frames| - 1] == s.frames;
    OthersStay(s, t);
  }

  // ---- Opening -----------------------------------------------------------------------------------------

  lemma KeepOpen(s: State)
    requires Inv(s)
    ensures Inv(Open(s))
  {
    hide Callbacks;
    var t := Open(s);
    CallbacksEmpty(s);
    CallbacksStay(s, t) by { assert Unrun(t) == Unrun(s); }
  }

  lemma KeepOpened(s: State, live: bool)
    requires Inv(s)
    ensures Inv(Opened(s, live))
  {
    hide Inv;
    if s.frames == [] && s.world.opening.Some? {
      var n, t := s.world.opening.value, Attached(s, live);
      KeepAttached(s, live);
      if !s.my.closing {
        KeepPush(t, Announcing);
      } else {
        KeepData(t, FailWaiting(t));
        if s.my.waitingWrite.Some? {
          KeepCancelling(FailWaiting(t), n);
        } else {
          KeepCancelPort(t, n);
        }
      }
    }
  }

  /** The opening has been settled and its port is the current one. */
  function Attached(s: State, live: bool): State
    requires s.world.opening.Some?
  {
    var n := s.world.opening.value;
    s.(my := s.my.(opening := false, port := Some(n)),
       world := s.world.(opening := None,
                         openPorts := if live then s.world.openPorts + {n} else s.world.openPorts))
  }

  lemma KeepAttached(s: State, live: bool)
    requires Inv(s) && s.frames == [] && s.world.opening.Some?
    ensures Inv(Attached(s, live)) && s.world.opening.value < Settled(Attached(s, live))
  {
    hide Callbacks, Increasing;
    var t := Attached(s, live);
    CallbacksEmpty(s);
    CallbacksStay(s, t) by { assert Unrun(t) == Unrun(s); }
    if s.my.port.Some? { IncreasingWider(s.log.closed, Bound(s), Bound(t)); }
  }

  lemma KeepCancelling(s: State, n: nat)
    requires Inv(s) && s.frames == [] && n < Settled(s)
    ensures Inv(Push(s, Cancelling(n)))
  {
    hide Callbacks, Increasing;
    var t := Push(s, Cancelling(n));
    WaitingPush(s.frames, Cancelling(n));
    CallbacksEmpty(s);
    CallbacksStay(s, t) by { assert Unrun(t) == Unrun(s); }
  }

  lemma KeepOpenFailed(s: State)
    requires Inv(s)
    ensures Inv(OpenFailed(s))
  {
    hide Inv, FinishClose;
    if s.frames == [] && s.world.opening.Some? {
      var n := s.world.opening.value;
      var t := s.(my := s.my.(opening := false), world := s.world.(opening := None));
      KeepEnded(s);
      KeepData(t, FailWaiting(t));
      if s.my.waitingWrite.Some? {
        KeepPushFailed(FailWaiting(t), n);
      } else if s.my.closing {
        KeepFinishClose(t, n);
      }
    }
  }

  /** The opening in progress has failed. */
  lemma KeepEnded(s: State)
    requires Inv(s) && s.frames == [] && s.world.opening.Some?
    ensures var t := s.(my := s.my.(opening := false), world := s.world.(opening := None));
            Inv(t) && s.world.opening.value < Settled(t)
            && (t.my.port.Some? ==> t.my.port.value < s.world.opening.value)
            && Increasing(t.log.closed, if t.my.port.Some? then t.my.port.value else s.world.opening.value)
  {
    hide Callbacks, Increasing;
    var n, t := s.world.opening.value, s.(my := s.my.(opening := false), world := s.world.(opening := None));
    CallbacksEmpty(s);
    CallbacksStay(s, t) by { assert Unrun(t) == Unrun(s); }
    if s.my.port.None? { IncreasingWider(s.log.closed, n, n + 1); }
  }

  lemma KeepPushFailed(s: State, n: nat)
    requires Inv(s) && s.frames == [] && n < Settled(s) && (s.my.port.Some? ==> s.my.port.value < n)
    requires Increasing(s.log.closed, if s.my.port.Some? then s.my.port.value else n)
    ensures Inv(Push(s, FailedOpen(n)))
  {
    hide Callbacks, Increasing;
    var t := Push(s, FailedOpen(n));
    WaitingPush(s.frames, FailedOpen(n));
    CallbacksEmpty(s);
    CallbacksStay(s, t) by { assert Unrun(t) == Unrun(s); }
  }

  // ---- Reading and writing -------------------------------------------------------------------------------

  lemma KeepReadRefused(s: State, canceled: bool)
    requires Inv(s) && (s.my.port.Some? ==> s.my.port.value !in s.world.requests)
    ensures Inv(ReadRefused(s, canceled))
  {
    hide Callbacks, Close, Increasing, Frames;
    var t := s.(my := s.my.(readPort := if s.my.readPort == s.my.port then None else s.my.readPort));
    CallbacksEmpty(s);
    CallbacksStay(s, t) by { assert Unrun(t) == Unrun(s); }
    FramesSame(s, t);
    KeepClose(t, false, Some(0));
  }

  lemma KeepRead(s: State, start: Start)
    requires Inv(s)
    ensures Inv(Read(s, start))
  {
    hide Inv, ReadRefused;
    var t := s.(my := s.my.(readRequested := true));
    KeepWanted(s);
    if IsOpen(s) && s.my.readPort != s.my.port {
      NotRequested(s);
      KeepData(t, Asked(t));
      match start
      case Granted =>
      case Refused(canceled) => KeepReadRefused(Asked(t), canceled);
      case Requested => KeepRequested(Asked(t));
    }
  }

  lemma NotRequested(s: State)
    requires Inv(s) && s.my.port.Some? && s.my.readPort != s.my.port
    ensures s.my.port.value !in s.world.requests
  {
    hide Ports, Frames, Callbacks, Closes;
  }

  lemma KeepWanted(s: State)
    requires Inv(s)
    ensures Inv(s.(my := s.my.(readRequested := true)))
  {
    hide Callbacks, Increasing, Ports, Frames, Closes, Requests;
    var t := s.(my := s.my.(readRequested := true));
    CallbacksEmpty(s);
    CallbacksStay(s, t) by { assert Unrun(t) == Unrun(s); }
    OthersStay(s, t);
  }

  lemma KeepRequested(s: State)
    requires Inv(s) && s.my.port.Some? && s.my.port.value !in s.world.requests
    ensures Inv(s.(my := s.my.(readPort := s.my.port),
                   world := s.world.(requests := s.world.requests + multiset{s.my.port.value})))
  {
    hide Callbacks, Increasing, Frames;
    var t := s.(my := s.my.(readPort := s.my.port),
                world := s.world.(requests := s.world.requests + multiset{s.my.port.value}));
    CallbacksEmpty(s);
    CallbacksStay(s, t) by { assert Unrun(t) == Unrun(s); }
    FramesSame(s, t);
  }

  lemma KeepForget(s: State, q: nat)
    requires Inv(s) && q in s.world.requests
    ensures Inv(Forget(s, q)) && q !in Forget(s, q).world.requests
  {
    hide Callbacks, Increasing, Frames;
    var t := Forget(s, q);
    CallbacksEmpty(s);
    CallbacksStay(s, t) by { assert Unrun(t) == Unrun(s); }
    FramesSame(s, t);
  }

  lemma KeepDeliver(s: State, q: nat, data: Bytes)
    requires Inv(s)
    ensures Inv(Deliver(s, q, data))
  {
    hide Callbacks, Increasing, Ports, Frames, Closes, Requests;
    var t := Deliver(s, q, data);
    CallbacksEmpty(s);
    CallbacksStay(s, t) by { assert Unrun(t) == Unrun(s); }
    OthersStay(s, t);
  }

  lemma KeepReadSettled(s: State, e: Event)
    requires Inv(s) && (e.EReadResolved? || e.EReadRejected?)
    ensures Inv(Step(s, e))
  {
    hide Inv, Forget, Read, ReadRefused, Deliver;
    if s.frames == [] && e.q in s.world.requests {
      KeepForget(s, e.q);
      var t := Forget(s, e.q);
      KeepRead(t, e.start);
      if e.EReadRejected? && t.my.port == Some(e.q) {
        KeepReadRefused(t, e.canceled);
      } else if e.EReadResolved? {
        KeepDeliver(t, e.q, e.data);
      }
    }
  }

  lemma KeepWrite(s: State, w: nat)
    requires Inv(s)
    ensures Inv(Write(s, w))
  {
    hide Callbacks, Increasing, Frames;
    var t := Write(s, w);
    CallbacksEmpty(s);
    CallbacksStay(s, t) by { assert Unrun(t) == Unrun(s); }
    FramesSame(s, t);
  }

  /** The waiting write, and what the log says of writes and reads, matter to nothing else. */
  predicate SameButData(s: State, t: State) {
    && t.frames == s.frames && t.world == s.world && t.my == s.my.(waitingWrite := t.my.waitingWrite)
    && t.log == s.log.(handed := t.log.handed, sent := t.log.sent, failed := t.log.failed, asked := t.log.asked)
  }

  lemma KeepData(s: State, t: State)
    requires Inv(s) && SameButData(s, t)
    ensures Inv(t)
  {
    hide Callbacks, Increasing, Ports, Frames, Closes, Requests;
    CallbacksEmpty(s);
    CallbacksStay(s, t) by { assert Unrun(t) == Unrun(s); }
    OthersStay(s, t);
  }

  lemma KeepHandOver(s: State)
    requires Inv(s)
    ensures Inv(HandOver(s))
  {
    hide Inv, Write;
    var t := s.(log := s.log.(handed := s.log.handed + 1));
    KeepData(s, t);
    KeepWrite(t, s.log.handed);
  }

  lemma KeepSendWaiting(s: State)
    requires Inv(s)
    ensures Inv(SendWaiting(s))
  {
    hide Inv, Write;
    var t := s.(my := s.my.(waitingWrite := None));
    KeepData(s, t);
    if s.my.waitingWrite.Some? { KeepWrite(t, s.my.waitingWrite.value); }
  }

  lemma KeepWriteSettled(s: State, q: nat, ok: bool, canceled: bool)
    requires Inv(s)
    ensures Inv(WriteSettled(s, q, ok, canceled))
  {
    hide Inv, Close;
    if s.frames == [] && q in s.world.writes {
      var t := s.(world := s.world.(writes := s.world.writes - multiset{q}));
      FewerPromises(s, t);
      KeepClose(t, false, Some(0));
    }
  }

  lemma KeepResume(s: State, start: Start)
    requires Inv(s)
    ensures Inv(Resume(s, start))
  {
    hide Inv, SendWaiting, Read;
    KeepSendWaiting(s);
    KeepRead(SendWaiting(s), start);
  }

  lemma KeepPortChanges(s: State, q: nat, live: bool)
    requires Inv(s)
    ensures Inv(PortChanges(s, q, live))
  {
    hide Callbacks, Increasing, Frames;
    var t := PortChanges(s, q, live);
    CallbacksEmpty(s);
    CallbacksStay(s, t) by { assert Unrun(t) == Unrun(s); }
    FramesSame(s, t);
  }

  // ---- Application code ----------------------------------------------------------------------------------

  /** The method on top runs its next callback. */
  function Next(s: State, next: Frame): State
    requires s.frames != [] && Top(s).Callbacks() != []
  {
    Push(RunCallback(Pop(s), Top(s).Callbacks()[0]), next)
  }

  lemma NextUnrun(s: State, next: Frame)
    requires s.frames != [] && Top(s).Callbacks() != [] && next.Callbacks() == Top(s).Callbacks()[1..]
    ensures var callbacks, below := Top(s).Callbacks(), Waiting(Pop(s).frames);
            var after := callbacks[1..] + s.my.closeCallbacks;
            Unrun(s) == below + [callbacks[0]] + after && Unrun(Next(s, next)) == below + after
  {
    hide Waiting;
    var callbacks, below := Top(s).Callbacks(), Pop(s).frames;
    WaitingPop(s.frames);
    WaitingPush(below, next);
    Regroup(Waiting(below), callbacks, s.my.closeCallbacks);
  }

  lemma Regroup(a: seq<nat>, b: seq<nat>, c: seq<nat>)
    requires b != []
    ensures a + b + c == a + [b[0]] + (b[1..] + c) && a + b[1..] + c == a + (b[1..] + c)
  {
    assert b == [b[0]] + b[1..];
  }

  lemma KeepNext(s: State, next: Frame)
    requires Inv(s) && s.frames != [] && Top(s).Callbacks() != [] && Plain(next) && Plain(Top(s))
    requires next.Callbacks() == Top(s).Callbacks()[1..]
    ensures Inv(Next(s, next))
  {
    hide Increasing, Callbacks, Ports, Frames, Closes, Requests, Waiting, Unrun;
    var callbacks, t := Top(s).Callbacks(), Next(s, next);
    NextUnrun(s, next);
    CallbacksEmpty(s);
    CallbacksLeave(s, t, Waiting(Pop(s).frames), [callbacks[0]], callbacks[1..] + s.my.closeCallbacks);
    assert t.frames[..|s.frames| - 1] == s.frames[..|s.frames| - 1];
    OthersReplace(s, t);
  }

  lemma KeepPop(s: State)
    requires Inv(s) && s.frames != [] && Top(s).Callbacks() == []
    ensures Inv(Pop(s))
  {
    hide Increasing, Callbacks, Ports, Frames, Closes, Requests;
    WaitingPop(s.frames);
    assert Waiting(Pop(s).frames) + [] == Waiting(Pop(s).frames);
    CallbacksEmpty(s);
    CallbacksStay(s, Pop(s)) by { assert Unrun(Pop(s)) == Unrun(s); }
    OthersStay(s, Pop(s));
  }

  lemma KeepThrow(s: State)
    requires Inv(s)
    ensures Inv(Throw(s))
  {
    hide Increasing, Callbacks, Ports, Frames, Closes, Requests;
    if s.frames != [] {
      var t, lost := Throw(s), Top(s).Callbacks();
      WaitingPop(s.frames);
      CallbacksEmpty(s);
      CallbacksLeave(s, t, Waiting(Pop(s).frames), lost, s.my.closeCallbacks);
      OthersStay(s, t);
    }
  }

  lemma KeepCancelPort(s: State, n: nat)
    requires Inv(s) && n < Settled(s)
    ensures Inv(CancelPort(s, n))
  {
    hide Callbacks, Increasing, Frames;
    var t := CancelPort(s, n);
    CallbacksEmpty(s);
    CallbacksStay(s, t) by { assert Unrun(t) == Unrun(s); }
    FramesSame(s, t);
  }

  /** The handler of a failed opening goes on. */
  lemma KeepFailedOpen(s: State)
    requires Inv(s) && s.frames != [] && Top(s).FailedOpen?
    ensures Inv(FinishIfClosing(Pop(s), Top(s).attempt))
  {
    hide Inv, FinishClose, Increasing;
    KeepPop(s);
    FailedOpenFacts(s);
    if s.my.closing { KeepFinishClose(Pop(s), Top(s).attempt); }
  }

  lemma FailedOpenFacts(s: State)
    requires Inv(s) && s.frames != [] && Top(s).FailedOpen?
    ensures Pop(s).frames == [] && Top(s).attempt < Settled(s)
    ensures s.my.port.None? ==> Increasing(s.log.closed, Top(s).attempt)
  {
    hide Callbacks, Increasing;
  }

  lemma CancellingFacts(s: State)
    requires Inv(s) && s.frames != [] && Top(s).Cancelling?
    ensures Pop(s).frames == [] && Top(s).attempt < Settled(s)
  {
    hide Callbacks, Increasing;
  }

  lemma KeepReturn(s: State, start: Start)
    requires Inv(s)
    ensures Inv(Return(s, start))
  {
    hide Inv, Resume, CancelPort, FinishIfClosing, DestroyRest, Settled;
    if s.frames != [] {
      match Top(s)
      case Finishing(callbacks) =>
        if callbacks == [] { KeepPop(s); } else { KeepNext(s, Finishing(callbacks[1..])); }
      case Failing(callbacks) =>
        if callbacks == [] {
          KeepPop(s);
          KeepResume(Pop(s), start);
        } else {
          KeepNext(s, Failing(callbacks[1..]));
        }
      case Announcing =>
        KeepPop(s);
        KeepResume(Pop(s), start);
      case Cancelling(n) =>
        KeepPop(s);
        CancellingFacts(s);
        assert Settled(Pop(s)) == Settled(s) by { SettledPop(s); }
        KeepCancelPort(Pop(s), n);
      case FailedOpen(n) => KeepFailedOpen(s);
      case Destroying =>
        KeepPop(s);
        KeepDestroyRest(Pop(s));
    }
  }

  lemma SettledPop(s: State)
    requires s.frames != []
    ensures Settled(Pop(s)) == Settled(s)
  {
  }

  // ---- Runs ----------------------------------------------------------------------------------------------

  lemma KeepStep(s: State, e: Event)
    requires Inv(s)
    ensures Inv(Step(s, e))
  {
    hide Inv;
    match e
    case EOpen => KeepOpen(s);
    case EOpened(live) => KeepOpened(s, live);
    case EOpenFailed => KeepOpenFailed(s);
    case EClose(callback) => KeepClose(s, callback, None);
    case ECloseSettled(q, ok) => KeepCloseSettled(s, q, ok);
    case ECancelSettled(q, ok) => KeepCancelSettled(s, q, ok);
    case EOnClose(q, reason) => KeepOnClose(s, q, reason);
    case EDestroy => KeepDestroy(s);
    case ERead(start) => KeepRead(s, start);
    case EReadResolved(_, _, _) => KeepReadSettled(s, e);
    case EReadRejected(_, _, _) => KeepReadSettled(s, e);
    case EOnData(q, data) => KeepDeliver(s, q, data);
    case EWrite => KeepHandOver(s);
    case EWriteSettled(q, ok, canceled) => KeepWriteSettled(s, q, ok, canceled);
    case EReturn(start) => KeepReturn(s, start);
    case EThrow => KeepThrow(s);
    case EPortChanges(q, live) => KeepPortChanges(s, q, live);
  }

  /** Every run keeps the invariants. */
  lemma {:induction false} Safety(events: seq<Event>)
    ensures Inv(Run(events))
  {
    hide Inv;
    if events == [] {
      InitInv();
    } else {
      var before, last := events[..|events| - 1], events[|events| - 1];
      Safety(before);
      KeepStep(Run(before), last);
    }
  }

  lemma InitInv()
    ensures Inv(Init())
  {
  }
}
