/** The stream as the object the source builds, with application code called from its methods.

  A stream is driven by a plan: all that will happen to it, in order.  The methods that wait for
  application code wait on the real call stack.  `Live` proves that this is the transition system of
  the life cycle, plan by plan, so what holds in all runs holds for the fields. */
module Streams {
  import opened Common
  import opened Lifecycle
  import opened LifecycleSafety
  import opened LifecycleTheorems
  import opened LifecycleClosing
  import opened LifecycleData

  /** What happens next, outside the stream: the application calls it, the code that the stream has
    called returns or throws, a hook is invoked, a promise settles, or a port changes. */
  type Act = Event

  class SerialPortStream {
    var opening: bool
    var closing: bool
    var destroyed: bool
    var port: Option<nat>
    var readRequested: bool
    var readPort: Option<nat>
    var waitingWrite: Option<nat>
    var closeCallbacks: seq<nat>
    var closeError: Option<nat>
    var world: World
    var log: Log
    var acts: seq<Act>              // what is still to happen
    ghost var frames: seq<Frame>    // the methods that wait, as on the call stack
    ghost var history: seq<Event>   // what has happened
    ghost var script: seq<Event>    // the plan, and the returns it leaves out
    ghost const plan: seq<Event>

    ghost function Abs(): State
      reads this
    {
      State(Fields(opening, closing, destroyed, port, readRequested, readPort, waitingWrite, closeCallbacks, closeError),
            frames, world, log)
    }

    /** Application code that is still running when the plan ends returns. */
    ghost predicate Scripted()
      reads this`script
    {
      && plan <= script
      && (forall i :: |plan| <= i < |script| ==> script[i] == EReturn(Granted))
      && (script != plan ==> Run(plan).frames != [])
    }

    ghost predicate Valid()
      reads this
    {
      Abs() == Run(history) && Scripted()
    }

    /** Nothing but the rest of the plan is left of the script; or first `e` is. */
    ghost predicate Idle()
      reads this`history, this`acts, this`script
    {
      script == history + acts
    }

    ghost predicate Due(e: Event)
      reads this`history, this`acts, this`script
    {
      script == history + [e] + acts
    }

    constructor (acts: seq<Act>)
      ensures Valid() && Idle() && frames == [] && plan == this.acts == acts
    {
      opening, closing, destroyed, port, readRequested, readPort := false, false, false, None, false, None;
      waitingWrite, closeCallbacks, closeError := None, [], None;
      world := World(0, {}, None, multiset{}, multiset{}, multiset{}, multiset{});
      log := NOTHING;
      this.acts, frames, history, script, plan := acts, [], [], acts, acts;
      new;
      assert history + acts == acts;
    }

    /** The next act of the plan. */
    method Take() returns (act: Act)
      requires Idle() && acts != []
      modifies this`acts
      ensures Due(act) && [act] + acts == old(acts)
    {
      act, acts := acts[0], acts[1..];
      assert [act] + acts == old(acts);
      assert history + ([act] + acts) == history + [act] + acts;
    }

    /** The plan has ended, and the code on top returns. */
    ghost method GoBack()
      requires Valid() && Idle() && acts == [] && frames != []
      modifies this`script
      ensures Valid() && Due(EReturn(Granted))
    {
      hide Run;
      assert history == script;
      script := script + [EReturn(Granted)];
    }

    /** The fields have reached the state after `e`. */
    ghost method Record(e: Event)
      requires Abs() == Step(Run(history), e) && Scripted() && Due(e)
      modifies this`history
      ensures Valid() && Idle()
    {
      hide Run, Step, Scripted;
      RunSnoc(history, e);
      history := history + [e];
    }

    /** The `isOpen` getter. */
    predicate HasOpenPort()
      reads this
      ensures HasOpenPort() <==> IsOpen(Abs())
    {
      port.Some? && port.value in world.openPorts && !closing
    }

    // ---- Methods that call no application code ---------------------------------------------------------

    /** `open` up to its first promise. */
    method StartOpen()
      requires Valid() && Due(EOpen)
      modifies this
      ensures Valid() && Idle() && frames == old(frames) && acts == old(acts)
    {
      hide Run;
      if destroyed || HasOpenPort() || opening || closing {
        Record(EOpen);
        return;
      }
      opening := true;
      world := world.(opens := world.opens + 1, opening := Some(world.opens));
      Record(EOpen);
    }

    /** `close` up to its promise. */
    method Shut(callback: bool, reason: Option<nat>)
      modifies this
      ensures Abs() == Close(old(Abs()), callback, reason)
      ensures history == old(history) && acts == old(acts) && script == old(script)
    {
      if closing { return; }
      if !HasOpenPort() && !opening { return; }
      closing := true;
      closeError := reason;
      if callback { Register(); }
      if opening { return; }
      world := world.(closes := world.closes + multiset{port.value});
    }

    /** A callback joins those of the close in progress. */
    method Register()
      modifies this`closeCallbacks, this`log
      ensures Abs() == old(Abs()).(my := old(Abs()).my.(closeCallbacks := old(closeCallbacks) + [old(log.registered)]),
                                   log := old(log).(registered := old(log.registered) + 1))
    {
      closeCallbacks := closeCallbacks + [log.registered];
      log := log.(registered := log.registered + 1);
    }

    method StartClose(callback: bool)
      requires Valid() && Due(EClose(callback))
      modifies this
      ensures Valid() && Idle() && frames == old(frames) && acts == old(acts)
    {
      hide Run, Close;
      CloseFrames(Abs(), callback, None);
      Shut(callback, None);
      Record(EClose(callback));
    }

    /** `_read`. */
    method Ask(start: Start)
      modifies this
      ensures Abs() == Read(old(Abs()), start)
      ensures history == old(history) && acts == old(acts) && script == old(script)
    {
      hide Run, Close;
      readRequested := true;
      if !HasOpenPort() || readPort == port { return; }
      log := log.(asked := port);
      match start
      case Granted =>
      case Refused(canceled) => ReadFailed(canceled);
      case Requested =>
        world := world.(requests := world.requests + multiset{port.value});
        readPort := port;
    }

    /** `_readError` of the current connection. */
    method ReadFailed(canceled: bool)
      modifies this
      ensures Abs() == ReadRefused(old(Abs()), canceled)
      ensures history == old(history) && acts == old(acts) && script == old(script)
    {
      hide Run, Close;
      if readPort == port { readPort := None; }
      if !canceled && HasOpenPort() { Shut(false, Some(0)); }
    }

    method StartRead(start: Start)
      requires Valid() && Due(ERead(start))
      modifies this
      ensures Valid() && Idle() && frames == old(frames) && acts == old(acts)
    {
      hide Run, Read;
      ReadFrames(Abs(), start);
      Ask(start);
      Record(ERead(start));
    }

    /** `_write`. */
    method Send(w: nat)
      modifies this`waitingWrite, this`world, this`log
      ensures Abs() == Write(old(Abs()), w)
    {
      if !HasOpenPort() {
        waitingWrite := Some(w);
        return;
      }
      world := world.(writes := world.writes + multiset{port.value});
      log := log.(sent := log.sent + [(w, port.value)]);
    }

    /** `_failWaitingWrite` up to the callback of the write; `waited` says whether there was one. */
    method FailWrite() returns (waited: bool)
      modifies this`waitingWrite, this`log
      ensures Abs() == FailWaiting(old(Abs())) && waited == old(waitingWrite.Some?)
    {
      waited := waitingWrite.Some?;
      if waited { log := log.(failed := log.failed + [waitingWrite.value]); }
      waitingWrite := None;
    }

    method StartWrite()
      requires Valid() && Due(EWrite)
      modifies this
      ensures Valid() && Idle() && frames == old(frames) && acts == old(acts)
    {
      hide Run, Write;
      WriteFrames(Abs());
      if waitingWrite.None? {
        var w := log.handed;
        log := log.(handed := w + 1);
        Send(w);
      }
      Record(EWrite);
    }

    /** `push`. */
    method Push(q: nat, data: Bytes)
      modifies this`readRequested, this`log
      ensures Abs() == Deliver(old(Abs()), q, data)
    {
      readRequested := false;
      log := log.(pushed := log.pushed + [(q, data)], asked := if readPort == port then port else None);
    }

    /** The `onData` hook. */
    method PortData(q: nat, data: Bytes)
      requires Valid() && Due(EOnData(q, data))
      modifies this
      ensures Valid() && Idle() && frames == old(frames) && acts == old(acts)
    {
      hide Run;
      if port == Some(q) && HasOpenPort() { Push(q, data); }
      Record(EOnData(q, data));
    }

    method PortChanged(q: nat, live: bool)
      requires Valid() && Due(EPortChanges(q, live))
      modifies this
      ensures Valid() && Idle() && frames == old(frames) && acts == old(acts)
    {
      hide Run;
      if q < world.opens {
        world := world.(openPorts := if live then world.openPorts + {q} else world.openPorts - {q});
      }
      Record(EPortChanges(q, live));
    }

    /** The promise of `port.write()` settles. */
    method WriteEnded(q: nat, ok: bool, canceled: bool)
      requires Valid() && Due(EWriteSettled(q, ok, canceled)) && frames == []
      modifies this
      ensures Valid() && Idle() && frames == [] && acts == old(acts)
    {
      hide Run, Close;
      if q in world.writes {
        world := world.(writes := world.writes - multiset{q});
        CloseFrames(Abs(), false, Some(0));
        if !ok && !canceled && port == Some(q) && HasOpenPort() { Shut(false, Some(0)); }
      }
      Record(EWriteSettled(q, ok, canceled));
    }

    /** The answer to a read request. */
    method ReadEnded(q: nat, data: Option<Bytes>, canceled: bool, start: Start, ghost e: Event)
      requires Valid() && Due(e) && frames == []
      requires e == if data.Some? then EReadResolved(q, data.value, start) else EReadRejected(q, canceled, start)
      modifies this
      ensures Valid() && Idle() && frames == [] && acts == old(acts)
    {
      hide Run, Step, Read, ReadRefused, Forget, Scripted, Idle, Due, IsOpen;
      AnswerStep(Abs(), q, data, canceled, start);
      if q in world.requests {
        ForgetFrames(Abs(), q);
        ForgetRead(q);
        ReadFrames(Abs(), start);
        ReadFrames(Abs(), Refused(canceled));
        if data.Some? && port == Some(q) && HasOpenPort() {
          Push(q, data.value);
        } else if data.None? && port == Some(q) {
          ReadFailed(canceled);
        } else if HasOpenPort() {
          Ask(start);
        }
      }
      Record(e);
    }

    method ForgetRead(q: nat)
      modifies this`world, this`readPort
      ensures Abs() == Forget(old(Abs()), q) && frames == old(frames)
    {
      world := world.(requests := world.requests - multiset{q});
      if readPort == Some(q) { readPort := None; }
    }

    // ---- Methods that call application code ------------------------------------------------------------

    /** A listener or callback: it may call the stream, and then it returns or throws. */
    method Application() returns (threw: bool, start: Start)
      requires Valid() && Idle() && frames != []
      modifies this
      ensures Valid() && Due(Ended(threw, start)) && frames == old(frames) && |acts| <= |old(acts)|
      decreases |acts|, 0
    {
      hide Run, Scripted, Idle, Due;
      while acts != []
        invariant Valid() && Idle() && frames == old(frames) && |acts| <= |old(acts)|
        decreases |acts|
      {
        var act := Take();
        match act
        case EReturn(next) =>
          return false, next;
        case EThrow =>
          return true, Granted;
        case _ =>
          Perform(act);
      }
      GoBack();
      threw, start := false, Granted;
    }

    /** A call of the application, or of the binding, that can come at any time.  A promise cannot
      settle while the application is being called, and otherwise nothing can return or throw. */
    method Perform(act: Act)
      requires Valid() && Due(act)
      requires if frames == [] then !Settles(act) else !act.EReturn? && !act.EThrow?
      modifies this
      ensures Valid() && Idle() && frames == old(frames) && |acts| <= |old(acts)|
      decreases |acts|, 4
    {
      hide Run, Step, Scripted, Idle, Due;
      match act
      case EOpen => StartOpen();
      case EClose(callback) => StartClose(callback);
      case EDestroy => DestroyNow();
      case ERead(start) => StartRead(start);
      case EWrite => StartWrite();
      case EOnClose(q, reason) => PortClosed(q, reason);
      case EOnData(q, data) => PortData(q, data);
      case EPortChanges(q, live) => PortChanged(q, live);
      case _ =>
        IgnoredStep(Run(history), act);
        Record(act);
    }

    /** The method on top runs the callbacks it has left; if one throws, the rest is lost. */
    method RunCallbacks(callbacks: seq<nat>, finishing: bool, first: bool, firstStart: Start)
      returns (threw: bool, start: Start)
      requires Valid() && Due(Ended(first, firstStart)) && frames != []
      requires Top(Abs()) == Left(finishing, callbacks)
      modifies this
      ensures Valid() && |acts| <= |old(acts)|
      ensures threw ==> Idle() && frames == old(frames)[..|old(frames)| - 1]
      ensures !threw ==> Due(EReturn(start)) && frames == old(frames)[..|old(frames)| - 1] + [Left(finishing, [])]
      decreases |acts|, 1
    {
      hide Run, Step, Scripted, Idle, Due;
      ghost var below := frames[..|frames| - 1];
      threw, start := first, firstStart;
      var i := 0;
      assert callbacks[0..] == callbacks;
      while !threw && i < |callbacks|
        invariant 0 <= i <= |callbacks| && Valid() && Due(Ended(threw, start)) && |acts| <= |old(acts)|
        invariant frames == below + [Left(finishing, callbacks[i..])]
      {
        RunNext(callbacks[i..], finishing, start);
        i := i + 1;
        threw, start := Application();
      }
      if threw {
        GiveUp(callbacks[i..]);
      } else {
        assert callbacks[i..] == [];
      }
    }

    /** The method on top runs its next callback. */
    method RunNext(callbacks: seq<nat>, finishing: bool, start: Start)
      requires Valid() && Due(EReturn(start)) && frames != [] && callbacks != []
      requires Top(Abs()) == Left(finishing, callbacks)
      modifies this`log, this`frames, this`history
      ensures Valid() && Idle() && frames == old(frames)[..|old(frames)| - 1] + [Left(finishing, callbacks[1..])]
    {
      hide Run, Step, Scripted, Idle, Due;
      NextStep(Run(history), callbacks, finishing, start);
      log := log.(ran := log.ran + [callbacks[0]]);
      frames := frames[..|frames| - 1] + [Left(finishing, callbacks[1..])];
      Record(EReturn(start));
    }

    /** An exception leaves the method on top; its callbacks are lost. */
    method GiveUp(lost: seq<nat>)
      requires Valid() && Due(EThrow) && frames != [] && Top(Abs()).Callbacks() == lost
      modifies this`log, this`frames, this`history
      ensures Valid() && Idle() && frames == old(frames)[..|old(frames)| - 1]
    {
      hide Run, Step, Scripted, Idle, Due;
      ThrowStep(Run(history));
      log := log.(dropped := log.dropped + lost);
      frames := frames[..|frames| - 1];
      Record(EThrow);
    }

    /** `_finishClose`: the fields are reset and the callbacks are taken before 'close' is emitted. */
    method FinishClosing(n: nat, ghost e: Event)
      requires Step(Run(history), e) == FinishClose(Abs(), n) && Scripted() && Due(e)
      modifies this
      ensures Valid() && Idle() && frames == old(frames) && |acts| <= |old(acts)|
      decreases |acts|, 2
    {
      hide Run, Step, FinishClose, Scripted, Idle, Due;
      if port.None? && !closing {
        NotAttached(Abs(), n);
        Record(e);
        return;
      }
      var callbacks := Detach(n);
      Record(e);
      var threw, start := Application();
      threw, start := RunCallbacks(callbacks, true, threw, start);
      if !threw { Done(start); }
    }

    /** The fields are reset and the callbacks taken; then 'close' is emitted. */
    method Detach(n: nat) returns (callbacks: seq<nat>)
      requires port.Some? || closing
      modifies this
      ensures Abs() == FinishClose(old(Abs()), n) && frames == old(frames) + [Finishing(callbacks)]
      ensures history == old(history) && acts == old(acts) && script == old(script)
    {
      hide Run, FinishClose;
      ghost var was := Abs();
      var attempt := if port.Some? then port.value else n;
      callbacks := Reset();
      frames := frames + [Finishing(callbacks)];
      log := log.(closed := log.closed + [attempt]);
      DetachStep(was, n);
    }

    method Reset() returns (callbacks: seq<nat>)
      modifies this`port, this`closing, this`readPort, this`readRequested, this`closeCallbacks, this`closeError
      ensures callbacks == old(closeCallbacks)
      ensures Abs() == old(Abs()).(my := old(Abs()).my.(port := None, closing := false, readPort := None,
                                                        readRequested := true, closeError := None, closeCallbacks := []))
    {
      hide Run;
      callbacks := TakeCallbacks();
      port, closing, readPort, readRequested := None, false, None, true;
    }

    method TakeCallbacks() returns (callbacks: seq<nat>)
      modifies this`closeCallbacks, this`closeError
      ensures callbacks == old(closeCallbacks) && closeCallbacks == [] && closeError == None
    {
      closeError := None;
      callbacks, closeCallbacks := closeCallbacks, [];
    }

    method Done(start: Start)
      requires Valid() && Due(EReturn(start)) && frames != [] && Top(Abs()) == Finishing([])
      modifies this`frames, this`history
      ensures Valid() && Idle() && frames == old(frames)[..|old(frames)| - 1]
    {
      hide Run, Step;
      DoneStep(Run(history), start);
      frames := frames[..|frames| - 1];
      Record(EReturn(start));
    }

    /** `_closeFailed`. */
    method ClosingFailed(q: nat, ghost e: Event)
      requires Step(Run(history), e) == CloseFailed(Abs(), q) && Scripted() && Due(e)
      modifies this
      ensures Valid() && Idle() && frames == old(frames) && |acts| <= |old(acts)|
      decreases |acts|, 3
    {
      hide Run, Step, FinishClose, CloseFailed;
      FailedCases(Abs(), q);
      if port != Some(q) {
        Record(e);
      } else if q !in world.openPorts {
        FinishClosing(q, e);
      } else {
        var rest := Reattach(q);
        Record(e);
        var threw, start := Application();
        threw, start := RunCallbacks(rest, false, threw, start);
        if !threw { ResumeAfter(start, Failing([])); }
      }
    }

    /** The port stays open: the close is taken back and the first callback runs. */
    method Reattach(q: nat) returns (rest: seq<nat>)
      requires port == Some(q) && q in world.openPorts
      modifies this
      ensures Abs() == CloseFailed(old(Abs()), q) && frames == old(frames) + [Failing(rest)]
      ensures history == old(history) && acts == old(acts) && script == old(script)
    {
      hide Run;
      closing := false;
      var callbacks := TakeCallbacks();
      rest := [];
      if callbacks != [] {
        log := log.(ran := log.ran + [callbacks[0]]);
        rest := callbacks[1..];
      }
      frames := frames + [Failing(rest)];
    }

    /** The method on top returns to `_resumeIO`. */
    method ResumeAfter(start: Start, ghost top: Frame)
      requires Valid() && Due(EReturn(start)) && frames != []
      requires Top(Abs()) == top && (top == Failing([]) || top == Announcing)
      modifies this
      ensures Valid() && Idle() && frames == old(frames)[..|old(frames)| - 1] && acts == old(acts)
    {
      hide Run, Step, Read, Write;
      ResumeStep(Run(history), start);
      frames := frames[..|frames| - 1];
      ResumeFrames(Abs(), start);
      ResumeIO(start);
      Record(EReturn(start));
    }

    /** `_resumeIO`. */
    method ResumeIO(start: Start)
      modifies this
      ensures Abs() == Resume(old(Abs()), start)
      ensures history == old(history) && acts == old(acts) && script == old(script)
    {
      hide Run, Read;
      if destroyed || !HasOpenPort() { return; }
      if waitingWrite.Some? {
        var w := waitingWrite.value;
        waitingWrite := None;
        Send(w);
      }
      if readRequested { Ask(start); }
    }

    /** The `onClose` hook. */
    method PortClosed(q: nat, reason: Option<nat>)
      requires Valid() && Due(EOnClose(q, reason))
      modifies this
      ensures Valid() && Idle() && frames == old(frames) && |acts| <= |old(acts)|
      decreases |acts|, 3
    {
      hide Run, Close, FinishClose;
      CloseFrames(Abs(), false, reason);
      if port != Some(q) {
        Record(EOnClose(q, reason));
      } else if q in world.openPorts {
        Shut(false, reason);
        Record(EOnClose(q, reason));
      } else {
        FinishClosing(q, EOnClose(q, reason));
      }
    }

    /** The promise of `port.close()` settles. */
    method CloseEnded(q: nat, ok: bool, canceled: bool, ghost e: Event)
      requires Valid() && Due(e) && frames == [] && e == if canceled then ECancelSettled(q, ok) else ECloseSettled(q, ok)
      modifies this
      ensures Valid() && Idle() && frames == [] && |acts| <= |old(acts)|
    {
      hide Run, FinishClose, CloseFailed;
      if canceled {
        if q !in world.cancels {
          Record(e);
          return;
        }
        world := world.(cancels := world.cancels - multiset{q});
      } else {
        if q !in world.closes {
          Record(e);
          return;
        }
        world := world.(closes := world.closes - multiset{q});
      }
      if !ok {
        ClosingFailed(q, e);
      } else if port == Some(q) {
        FinishClosing(q, e);
      } else {
        Record(e);
      }
    }

    /** `_destroy`. */
    method DestroyNow()
      requires Valid() && Due(EDestroy)
      modifies this
      ensures Valid() && Idle() && frames == old(frames) && |acts| <= |old(acts)|
      decreases |acts|, 3
    {
      hide Run, Step, DestroyRest, FailWaiting, Scripted, Idle, Due;
      DestroyStep(Run(history));
      if destroyed {
        Record(EDestroy);
        return;
      }
      destroyed := true;
      var waited := FailWrite();
      if waited {
        frames := frames + [Destroying];
        Record(EDestroy);
        DestroyLater();
      } else {
        DestroyOn();
        Record(EDestroy);
      }
    }

    /** The callback of the waiting write runs. */
    method DestroyLater()
      requires Valid() && Idle() && frames != [] && Top(Abs()) == Destroying
      modifies this
      ensures Valid() && Idle() && frames == old(frames)[..|old(frames)| - 1] && |acts| <= |old(acts)|
      decreases |acts|, 2
    {
      hide Run, Step, Scripted, Idle, Due;
      var threw, start := Application();
      if threw { GiveUp([]); } else { DestroyAfter(start); }
    }

    /** The callback of the waiting write has returned to `_destroy`. */
    method DestroyAfter(start: Start)
      requires Valid() && Due(EReturn(start)) && frames != [] && Top(Abs()) == Destroying
      modifies this
      ensures Valid() && Idle() && frames == old(frames)[..|old(frames)| - 1] && acts == old(acts)
    {
      hide Run, Step, DestroyRest;
      DestroyedStep(Run(history), start);
      frames := frames[..|frames| - 1];
      DestroyOn();
      Record(EReturn(start));
    }

    /** The rest of `_destroy`. */
    method DestroyOn()
      modifies this
      ensures Abs() == DestroyRest(old(Abs())) && frames == old(frames)
      ensures history == old(history) && acts == old(acts) && script == old(script)
    {
      hide Run, Close;
      CloseFrames(Abs(), true, None);
      if closing {
        Register();
      } else if HasOpenPort() || opening {
        Shut(true, None);
      } else {
        log := log.(ran := log.ran + [log.registered], registered := log.registered + 1);
      }
    }

    /** The port arrives; if the opening has been cancelled it is closed at once. */
    method PortOpened(live: bool)
      requires Valid() && Due(EOpened(live)) && frames == []
      modifies this
      ensures Valid() && Idle() && frames == [] && |acts| <= |old(acts)|
    {
      hide Run, Step, Attached;
      OpenedStep(Run(history), live);
      if world.opening.None? {
        Record(EOpened(live));
        return;
      }
      var n := Attach(live);
      if !closing {
        frames := [Announcing];
        Record(EOpened(live));
        var threw, start := Application();
        if threw { GiveUp([]); } else { ResumeAfter(start, Announcing); }
      } else {
        CancelOpened(n, live);
      }
    }

    method Attach(live: bool) returns (n: nat)
      requires world.opening.Some?
      modifies this`opening, this`port, this`world
      ensures Abs() == Attached(old(Abs()), live) && n == old(world.opening.value)
      ensures frames == old(frames) && closing == old(closing) && waitingWrite == old(waitingWrite)
    {
      n := world.opening.value;
      opening := false;
      port := Some(n);
      world := world.(opening := None, openPorts := if live then world.openPorts + {n} else world.openPorts);
    }

    method CancelOpened(n: nat, live: bool)
      requires frames == [] && Scripted() && Due(EOpened(live))
      requires Step(Run(history), EOpened(live))
               == if waitingWrite.Some? then FailWaiting(Abs()).(frames := [Cancelling(n)])
                  else Abs().(world := Abs().world.(cancels := Abs().world.cancels + multiset{n}))
      modifies this
      ensures Valid() && Idle() && frames == [] && |acts| <= |old(acts)|
    {
      hide Run, Step;
      var waited := FailWrite();
      if waited {
        frames := [Cancelling(n)];
        Record(EOpened(live));
        var threw, start := Application();
        if threw { GiveUp([]); } else { CancelNow(n, start); }
      } else {
        world := world.(cancels := world.cancels + multiset{n});
        Record(EOpened(live));
      }
    }

    /** `port.close()` of a cancelled opening. */
    method CancelNow(n: nat, start: Start)
      requires Valid() && Due(EReturn(start)) && frames == [Cancelling(n)]
      modifies this
      ensures Valid() && Idle() && frames == [] && acts == old(acts)
    {
      hide Run, Step;
      CancelStep(Run(history), n, start);
      frames := [];
      world := world.(cancels := world.cancels + multiset{n});
      Record(EReturn(start));
    }

    /** The opening fails. */
    method OpeningFailed()
      requires Valid() && Due(EOpenFailed) && frames == []
      modifies this
      ensures Valid() && Idle() && frames == [] && |acts| <= |old(acts)|
    {
      hide Run, Step, FinishClose, Scripted, Idle, Due;
      OpenFailedStep(Run(history));
      if world.opening.None? {
        Record(EOpenFailed);
        return;
      }
      var n := EndOpening();
      var waited := FailWrite();
      if waited {
        frames := [FailedOpen(n)];
        Record(EOpenFailed);
        var threw, start := Application();
        if threw { GiveUp([]); } else { FinishFailed(n, start); }
      } else if closing {
        FinishClosing(n, EOpenFailed);
      } else {
        Record(EOpenFailed);
      }
    }

    method EndOpening() returns (n: nat)
      requires world.opening.Some?
      modifies this`opening, this`world
      ensures n == old(world.opening.value)
      ensures Abs() == old(Abs()).(my := old(Abs()).my.(opening := false), world := old(world).(opening := None))
    {
      n := world.opening.value;
      world := world.(opening := None);
      opening := false;
    }

    /** The rest of the handler of a failed opening. */
    method FinishFailed(n: nat, start: Start)
      requires Valid() && Due(EReturn(start)) && frames == [FailedOpen(n)]
      modifies this
      ensures Valid() && Idle() && frames == [] && |acts| <= |old(acts)|
    {
      hide Run, Step, FinishClose, Scripted, Idle, Due;
      FailedStep(Run(history), n, start);
      frames := [];
      if closing { FinishClosing(n, EReturn(start)); } else { Record(EReturn(start)); }
    }

    // ---- The event loop --------------------------------------------------------------------------------

    /** Something happens while no method waits. */
    method Happen(act: Act)
      requires Valid() && Due(act) && frames == []
      modifies this
      ensures Valid() && Idle() && frames == [] && |acts| <= |old(acts)|
    {
      hide Run, Step, Scripted, Idle, Due;
      match act
      case EOpened(live) => PortOpened(live);
      case EOpenFailed => OpeningFailed();
      case ECloseSettled(q, ok) => CloseEnded(q, ok, false, act);
      case ECancelSettled(q, ok) => CloseEnded(q, ok, true, act);
      case EReadResolved(q, data, start) => ReadEnded(q, Some(data), false, start, act);
      case EReadRejected(q, canceled, start) => ReadEnded(q, None, canceled, start, act);
      case EWriteSettled(q, ok, canceled) => WriteEnded(q, ok, canceled);
      case _ => Perform(act);
    }

    /** The stream lives through its plan.  With the methods that wait on the call stack it reaches the
      state of the transition system, in which they wait in frames. */
    method Live()
      requires Valid() && Idle() && frames == []
      modifies this
      ensures Valid() && frames == [] && Abs() == Run(script)
      ensures Run(plan).frames == [] ==> Abs() == Run(plan)
    {
      hide Run, Due;
      while acts != []
        invariant Valid() && Idle() && frames == []
        decreases |acts|
      {
        hide Scripted, Idle;
        var act := Take();
        Happen(act);
      }
      assert history + [] == history;
    }
  }

  // ---- What holds for the fields -------------------------------------------------------------------------

  /** The life of one stream, whatever happens to it: what its fields and its log show in the end, with
    no method waiting.  Each callback has run, been lost or is still held by a close in progress, and
    nothing of it twice; unless one threw with others behind it, all have run once no close is in
    progress; they ran in order unless one overtook another; each connection closed at most once, in
    order, and has at most one read request; and without exceptions a close in progress has something
    that will end it.  Each write handed over has been given to a port, has failed or is waiting, in
    order; and in an undisturbed life an open stream that has not been destroyed has no write waiting,
    and has asked its port for the data requested. */
  method Observe(acts: seq<Act>) returns (my: Fields, world: World, log: Log, ghost script: seq<Event>)
    ensures acts <= script && (script != acts ==> Run(acts).frames != [])
    ensures forall i :: |acts| <= i < |script| ==> script[i] == EReturn(Granted)
    ensures State(my, [], world, log) == Run(script)
    ensures forall id: nat ::
              multiset(log.ran)[id] + multiset(log.dropped)[id] + multiset(my.closeCallbacks)[id]
              == if id < log.registered then 1 else 0
    ensures !my.closing ==> ((forall id: nat :: id < log.registered ==> id in log.ran) <==> NothingLost(script))
    ensures NoOvertaking(script) ==> Increasing(log.ran, log.registered)
    ensures forall i, j :: 0 <= i < j < |log.closed| ==> log.closed[i] < log.closed[j]
    ensures my.port.Some? ==> my.port.value !in log.closed
    ensures forall q :: world.requests[q] <= 1
    ensures (forall e :: e in acts ==> !e.EThrow?) && my.closing ==>
              my.opening || (my.port.Some? && (my.port.value in world.closes || my.port.value in world.cancels))
    ensures forall w: nat ::
              multiset(SentIds(log.sent))[w] + multiset(log.failed)[w] + (if my.waitingWrite == Some(w) then 1 else 0)
              == if w < log.handed then 1 else 0
    ensures Increasing(SentIds(log.sent), log.handed) && Increasing(log.failed, log.handed)
    ensures Undisturbed(acts) && my.port.Some? && my.port.value in world.openPorts && !my.closing && !my.destroyed ==>
              my.waitingWrite.None? && (my.readRequested ==> log.asked == my.port)
  {
    hide Run, NothingLost, NoOvertaking, Increasing;
    var s := new SerialPortStream(acts);
    s.Live();
    my := Fields(s.opening, s.closing, s.destroyed, s.port, s.readRequested, s.readPort, s.waitingWrite,
                 s.closeCallbacks, s.closeError);
    world, log, script := s.world, s.log, s.script;
    CallbacksRunOnce(script);
    LineIsHeld(Run(script));
    if !my.closing { AllCallbacksRun(script); }
    CallbacksRunInOrder(script);
    OneCloseEach(script);
    OneReadEach(script);
    if forall e :: e in acts ==> !e.EThrow? { NoThrowNeverStuck(script); }
    WritesAreKept(script);
    if Undisturbed(acts) { NothingNeglected(script); }
  }

  /** With no method waiting, the callbacks still to run are held by the close in progress. */
  lemma LineIsHeld(s: State)
    requires s.frames == []
    ensures Unrun(s) == s.my.closeCallbacks
  {
  }

  function Ended(threw: bool, start: Start): Event { if threw then EThrow else EReturn(start) }

  /** What a method that runs callbacks has left. */
  function Left(finishing: bool, callbacks: seq<nat>): Frame {
    if finishing then Finishing(callbacks) else Failing(callbacks)
  }

  lemma IgnoredStep(s: State, e: Event)
    requires (s.frames != [] && Settles(e)) || (s.frames == [] && (e.EReturn? || e.EThrow?))
    ensures Step(s, e) == s
  {
  }

  lemma ReadFrames(s: State, start: Start)
    ensures Read(s, start).frames == s.frames
    ensures start.Refused? ==> ReadRefused(s, start.canceled).frames == s.frames
  {
  }

  lemma WriteFrames(s: State)
    ensures HandOver(s).frames == s.frames
  {
  }

  lemma CloseFrames(s: State, callback: bool, reason: Option<nat>)
    ensures Close(s, callback, reason).frames == s.frames
  {
  }

  lemma NextStep(s: State, callbacks: seq<nat>, finishing: bool, start: Start)
    requires s.frames != [] && Top(s) == Left(finishing, callbacks) && callbacks != []
    ensures Step(s, EReturn(start))
         == s.(frames := s.frames[..|s.frames| - 1] + [Left(finishing, callbacks[1..])],
               log := s.log.(ran := s.log.ran + [callbacks[0]]))
  {
  }

  lemma ThrowStep(s: State)
    requires s.frames != []
    ensures Step(s, EThrow)
         == s.(frames := s.frames[..|s.frames| - 1], log := s.log.(dropped := s.log.dropped + Top(s).Callbacks()))
  {
  }

  lemma DoneStep(s: State, start: Start)
    requires s.frames != [] && Top(s) == Finishing([])
    ensures Step(s, EReturn(start)) == s.(frames := s.frames[..|s.frames| - 1])
  {
  }

  lemma ResumeStep(s: State, start: Start)
    requires s.frames != [] && (Top(s) == Failing([]) || Top(s) == Announcing)
    ensures Step(s, EReturn(start)) == Resume(s.(frames := s.frames[..|s.frames| - 1]), start)
  {
  }

  lemma ResumeFrames(s: State, start: Start)
    ensures Resume(s, start).frames == s.frames
  {
    hide Read;
    ReadFrames(SendWaiting(s), start);
  }

  lemma DestroyStep(s: State)
    ensures var t := FailWaiting(s.(my := s.my.(destroyed := true)));
            Step(s, EDestroy) == if s.my.destroyed then s
                                 else if s.my.waitingWrite.Some? then t.(frames := s.frames + [Destroying])
                                 else DestroyRest(t)
  {
  }

  lemma DestroyedStep(s: State, start: Start)
    requires s.frames != [] && Top(s) == Destroying
    ensures Step(s, EReturn(start)) == DestroyRest(s.(frames := s.frames[..|s.frames| - 1]))
  {
    hide DestroyRest;
  }

  lemma OpenedStep(s: State, live: bool)
    requires s.frames == []
    ensures s.world.opening.None? ==> Step(s, EOpened(live)) == s
    ensures s.world.opening.Some? ==>
              var n, t := s.world.opening.value, Attached(s, live);
              Step(s, EOpened(live))
              == if !s.my.closing then t.(frames := [Announcing])
                 else if s.my.waitingWrite.Some? then FailWaiting(t).(frames := [Cancelling(n)])
                 else t.(world := t.world.(cancels := t.world.cancels + multiset{n}))
  {
  }

  lemma AnswerStep(s: State, q: nat, data: Option<Bytes>, canceled: bool, start: Start)
    requires s.frames == []
    ensures var t, e := Forget(s, q), if data.Some? then EReadResolved(q, data.value, start) else EReadRejected(q, canceled, start);
            Step(s, e)
            == if q !in s.world.requests then s
               else if data.Some? && t.my.port == Some(q) && IsOpen(t) then Deliver(t, q, data.value)
               else if data.None? && t.my.port == Some(q) then ReadRefused(t, canceled)
               else if IsOpen(t) then Read(t, start)
               else t
  {
    hide Read, ReadRefused, Forget;
  }

  lemma CancelStep(s: State, n: nat, start: Start)
    requires s.frames == [Cancelling(n)]
    ensures Step(s, EReturn(start))
         == s.(frames := [], world := s.world.(cancels := s.world.cancels + multiset{n}))
  {
  }

  lemma OpenFailedStep(s: State)
    requires s.frames == []
    ensures s.world.opening.None? ==> Step(s, EOpenFailed) == s
    ensures s.world.opening.Some? ==>
              var n := s.world.opening.value;
              var t := FailWaiting(s.(my := s.my.(opening := false), world := s.world.(opening := None)));
              Step(s, EOpenFailed)
              == if s.my.waitingWrite.Some? then t.(frames := [FailedOpen(n)])
                 else if s.my.closing then FinishClose(t, n) else t
  {
    hide FinishClose;
  }

  lemma FailedStep(s: State, n: nat, start: Start)
    requires s.frames == [FailedOpen(n)]
    ensures var t := s.(frames := []);
            Step(s, EReturn(start)) == if s.my.closing then FinishClose(t, n) else t
  {
    hide FinishClose;
  }

  lemma NotAttached(s: State, n: nat)
    requires s.my.port.None? && !s.my.closing
    ensures FinishClose(s, n) == s
  {
  }

  lemma DetachStep(s: State, n: nat)
    requires s.my.port.Some? || s.my.closing
    ensures FinishClose(s, n).my
         == Fields(s.my.opening, false, s.my.destroyed, None, true, None, s.my.waitingWrite, [], None)
    ensures FinishClose(s, n).frames == s.frames + [Finishing(s.my.closeCallbacks)]
    ensures FinishClose(s, n).world == s.world
    ensures FinishClose(s, n).log
         == s.log.(closed := s.log.closed + [if s.my.port.Some? then s.my.port.value else n])
  {
  }

  lemma FailedCases(s: State, q: nat)
    ensures s.my.port != Some(q) ==> CloseFailed(s, q) == s
    ensures s.my.port == Some(q) && q !in s.world.openPorts ==> CloseFailed(s, q) == FinishClose(s, q)
  {
    hide FinishClose;
  }

  lemma ForgetFrames(s: State, q: nat)
    ensures Forget(s, q).frames == s.frames
  {
  }
}
