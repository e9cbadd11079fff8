/** What becomes of the writes that Node hands over and of the data it requests. */
module LifecycleData {
  import opened Common
  import opened Lifecycle
  import opened LifecycleSafety
  import opened LifecycleTheorems

  // ---- Writes ------------------------------------------------------------------------------------------

  /** What an event does to the writes. */
  datatype Move =
    | Keeps     // at most, the promise of a write settles
    | Sends     // the next write is given to the port
    | Waits     // the next write waits for a port
    | Resends   // the waiting write is given to the port
    | Fails     // the waiting write fails

  /** The method on top returns to `_resumeIO`, which goes on. */
  predicate Resumes(s: State) {
    s.frames != [] && (Top(s) == Failing([]) || Top(s) == Announcing) && !s.my.destroyed && IsOpen(s)
  }

  /** An opening is delivered or fails. */
  predicate Concludes(s: State) { s.frames == [] && s.world.opening.Some? }

  /** A write that waits is given to the port when its method resumes, and fails exactly with the
    destruction of the stream and with an opening that fails or has been cancelled. */
  function MoveOf(s: State, e: Event): Move {
    if e.EWrite? && s.my.waitingWrite.None? then (if IsOpen(s) then Sends else Waits)
    else if s.my.waitingWrite.None? then Keeps
    else
      match e
      case EDestroy => if s.my.destroyed then Keeps else Fails
      case EOpened(_) => if Concludes(s) && s.my.closing then Fails else Keeps
      case EOpenFailed => if Concludes(s) then Fails else Keeps
      case EReturn(_) => if Resumes(s) then Resends else Keeps
      case _ => Keeps
  }

  ghost predicate Moves(s: State, t: State, move: Move) {
    match move
    case Keeps =>
      && t.log.handed == s.log.handed && t.log.sent == s.log.sent && t.log.failed == s.log.failed
      && t.my.waitingWrite == s.my.waitingWrite && t.world.writes <= s.world.writes
    case Sends =>
      && t.log.handed == s.log.handed + 1 && t.log.failed == s.log.failed && t.my.waitingWrite == s.my.waitingWrite
      && SentTo(s, t, s.log.handed)
    case Waits =>
      && t.log.handed == s.log.handed + 1 && t.log.sent == s.log.sent && t.log.failed == s.log.failed
      && t.my.waitingWrite == Some(s.log.handed) && t.world.writes == s.world.writes
    case Resends =>
      && s.my.waitingWrite.Some? && t.my.waitingWrite.None?
      && t.log.handed == s.log.handed && t.log.failed == s.log.failed && SentTo(s, t, s.my.waitingWrite.value)
    case Fails =>
      && s.my.waitingWrite.Some? && t.my.waitingWrite.None? && t.log.handed == s.log.handed
      && t.log.sent == s.log.sent && t.log.failed == s.log.failed + [s.my.waitingWrite.value]
      && t.world.writes == s.world.writes
  }

  /** Write `w` is given to the current port, which is open. */
  ghost predicate SentTo(s: State, t: State, w: nat) {
    && IsOpen(s) && t.log.sent == s.log.sent + [(w, s.my.port.value)]
    && t.world.writes == s.world.writes + multiset{s.my.port.value}
  }

  /** Nothing happens to the writes. */
  predicate SameWrites(s: State, t: State) {
    && t.log.handed == s.log.handed && t.log.sent == s.log.sent && t.log.failed == s.log.failed
    && t.my.waitingWrite == s.my.waitingWrite && t.world.writes == s.world.writes
  }

  lemma CloseKeepsWrites(s: State, callback: bool, reason: Option<nat>)
    ensures SameWrites(s, Close(s, callback, reason)) && SameWrites(s, DestroyRest(s))
  {
  }

  lemma FinishKeepsWrites(s: State, n: nat)
    ensures SameWrites(s, FinishClose(s, n))
  {
  }

  lemma SettleKeepsWrites(s: State, q: nat, ok: bool)
    ensures SameWrites(s, Settle(s, q, ok))
  {
    hide FinishClose;
    FinishKeepsWrites(s, q);
  }

  lemma ReadKeepsWrites(s: State, start: Start)
    ensures SameWrites(s, Read(s, start))
    ensures start.Refused? ==> SameWrites(s, ReadRefused(s, start.canceled))
  {
    hide Close;
    var t := s.(my := s.my.(readPort := if s.my.readPort == s.my.port then None else s.my.readPort));
    CloseKeepsWrites(t, false, Some(0));
    CloseKeepsWrites(Asked(t.(my := t.my.(readRequested := true))), false, Some(0));
  }

  /** Each event does to the writes what its move says. */
  lemma WritesMove(s: State, e: Event)
    ensures Moves(s, Step(s, e), MoveOf(s, e))
  {
    hide Close, FinishClose, DestroyRest, Settle, Read, ReadRefused, Return, Moves, MoveOf;
    match e
    case EOpened(live) => OpenedMoves(s, live);
    case EOpenFailed => OpenFailedMoves(s);
    case EClose(callback) => CloseKeepsWrites(s, callback, None); StillMoves(s, e);
    case ECloseSettled(q, ok) =>
      SettleKeepsWrites(s.(world := s.world.(closes := s.world.closes - multiset{q})), q, ok);
      StillMoves(s, e);
    case ECancelSettled(q, ok) =>
      SettleKeepsWrites(s.(world := s.world.(cancels := s.world.cancels - multiset{q})), q, ok);
      StillMoves(s, e);
    case EOnClose(q, reason) =>
      CloseKeepsWrites(s, false, reason);
      FinishKeepsWrites(s, q);
      StillMoves(s, e);
    case EDestroy => DestroyMoves(s);
    case ERead(start) => ReadKeepsWrites(s, start); StillMoves(s, e);
    case EReadResolved(_, _, _) => AnswerKeepsWrites(s, e);
    case EReadRejected(_, _, _) => AnswerKeepsWrites(s, e);
    case EWrite => HandOverMoves(s);
    case EWriteSettled(q, ok, canceled) => WriteSettledMoves(s, q, ok, canceled);
    case EReturn(start) => ReturnMoves(s, start);
    case _ => StillMoves(s, e);
  }

  lemma StillMoves(s: State, e: Event)
    requires SameWrites(s, Step(s, e))
    requires !e.EWrite? && !e.EDestroy? && !e.EOpened? && !e.EOpenFailed? && !e.EReturn?
    ensures Moves(s, Step(s, e), MoveOf(s, e))
  {
    hide Step;
  }

  lemma OpenedMoves(s: State, live: bool)
    ensures Moves(s, Opened(s, live), MoveOf(s, EOpened(live)))
  {
  }

  lemma OpenFailedMoves(s: State)
    ensures Moves(s, OpenFailed(s), MoveOf(s, EOpenFailed))
  {
    hide FinishClose;
    if s.world.opening.Some? {
      FinishKeepsWrites(FailWaiting(s.(my := s.my.(opening := false), world := s.world.(opening := None))),
                        s.world.opening.value);
    }
  }

  lemma DestroyMoves(s: State)
    ensures Moves(s, Destroy(s), MoveOf(s, EDestroy))
  {
    hide DestroyRest;
    CloseKeepsWrites(FailWaiting(s.(my := s.my.(destroyed := true))), false, None);
  }

  lemma AnswerKeepsWrites(s: State, e: Event)
    requires e.EReadResolved? || e.EReadRejected?
    ensures Moves(s, Step(s, e), MoveOf(s, e))
  {
    hide Read, ReadRefused;
    ReadKeepsWrites(Forget(s, e.q), e.start);
    if e.EReadRejected? { ReadKeepsWrites(Forget(s, e.q), Refused(e.canceled)); }
  }

  lemma HandOverMoves(s: State)
    ensures Moves(s, HandOver(s), MoveOf(s, EWrite))
  {
  }

  lemma WriteSettledMoves(s: State, q: nat, ok: bool, canceled: bool)
    ensures Moves(s, WriteSettled(s, q, ok, canceled), MoveOf(s, EWriteSettled(q, ok, canceled)))
  {
    hide Close;
    CloseKeepsWrites(s.(world := s.world.(writes := s.world.writes - multiset{q})), false, Some(0));
  }

  lemma ReturnMoves(s: State, start: Start)
    ensures Moves(s, Return(s, start), MoveOf(s, EReturn(start)))
  {
    hide Moves, Resume;
    if s.frames == [] {
      NothingMoves(s, s);
    } else if Top(s) == Failing([]) || Top(s) == Announcing {
      ResumeMoves(Pop(s), start);
      PopMoves(s, Resume(Pop(s), start), MoveOf(s, EReturn(start)));
    } else {
      OtherReturns(s, start);
    }
  }

  lemma NothingMoves(s: State, t: State)
    requires SameWrites(s, t)
    ensures Moves(s, t, Keeps)
  {
  }

  lemma PopMoves(s: State, t: State, move: Move)
    requires s.frames != [] && Moves(Pop(s), t, move)
    ensures Moves(s, t, move)
  {
  }

  lemma OtherReturns(s: State, start: Start)
    requires s.frames != [] && Top(s) != Failing([]) && Top(s) != Announcing
    ensures Moves(s, Return(s, start), MoveOf(s, EReturn(start)))
  {
    hide Moves, FinishClose, DestroyRest, Resume;
    CloseKeepsWrites(Pop(s), false, None);
    if Top(s).FailedOpen? { FinishKeepsWrites(Pop(s), Top(s).attempt); }
    NothingMoves(s, Return(s, start));
  }

  lemma ResumeMoves(s: State, start: Start)
    ensures Moves(s, Resume(s, start),
                  if !s.my.destroyed && IsOpen(s) && s.my.waitingWrite.Some? then Resends else Keeps)
  {
    hide Read;
    ReadKeepsWrites(SendWaiting(s), start);
  }

  function SentIds(sent: seq<(nat, nat)>): seq<nat> {
    if sent == [] then [] else SentIds(sent[..|sent| - 1]) + [sent[|sent| - 1].0]
  }

  function Held(waiting: Option<nat>): seq<nat> { if waiting.Some? then [waiting.value] else [] }

  /** Every write handed over has been given to a port, has failed or is waiting; the first and the
    second are each in order, and the waiting one is the last. */
  ghost predicate Accounted(handed: nat, sent: seq<(nat, nat)>, failed: seq<nat>, waiting: Option<nat>) {
    && multiset(SentIds(sent)) + multiset(failed) + multiset(Held(waiting)) == multiset(Ids(handed))
    && (waiting.Some? ==> waiting.value + 1 == handed)
    && Increasing(SentIds(sent), Before(handed, waiting)) && Increasing(failed, Before(handed, waiting))
  }

  /** Where the writes that do not wait end. */
  function Before(handed: nat, waiting: Option<nat>): int { if waiting.Some? then waiting.value else handed }

  lemma SentSnoc(sent: seq<(nat, nat)>, w: nat, q: nat)
    ensures SentIds(sent + [(w, q)]) == SentIds(sent) + [w]
  {
    assert (sent + [(w, q)])[..|sent|] == sent;
  }

  lemma NextWaits(handed: nat, sent: seq<(nat, nat)>, failed: seq<nat>)
    requires Accounted(handed, sent, failed, None)
    ensures Accounted(handed + 1, sent, failed, Some(handed))
  {
    hide SentIds, Ids;
    IdsSnoc(handed);
  }

  lemma WaitingIsSent(handed: nat, sent: seq<(nat, nat)>, failed: seq<nat>, w: nat, q: nat)
    requires Accounted(handed, sent, failed, Some(w))
    ensures Accounted(handed, sent + [(w, q)], failed, None)
  {
    hide SentIds, Ids;
    SentSnoc(sent, w, q);
  }

  lemma WaitingFails(handed: nat, sent: seq<(nat, nat)>, failed: seq<nat>, w: nat)
    requires Accounted(handed, sent, failed, Some(w))
    ensures Accounted(handed, sent, failed + [w], None)
  {
    hide SentIds, Ids;
  }

  lemma AccountedStep(s: State, t: State, move: Move)
    requires Moves(s, t, move) && (move.Sends? || move.Waits? ==> s.my.waitingWrite.None?)
    requires Accounted(s.log.handed, s.log.sent, s.log.failed, s.my.waitingWrite)
    ensures Accounted(t.log.handed, t.log.sent, t.log.failed, t.my.waitingWrite)
  {
    hide Accounted;
    var next, waiting := s.log.handed, s.my.waitingWrite;
    match move
    case Keeps =>
    case Waits => NextWaits(next, s.log.sent, s.log.failed);
    case Sends =>
      NextWaits(next, s.log.sent, s.log.failed);
      WaitingIsSent(next + 1, s.log.sent, s.log.failed, next, s.my.port.value);
    case Resends => WaitingIsSent(next, s.log.sent, s.log.failed, waiting.value, s.my.port.value);
    case Fails => WaitingFails(next, s.log.sent, s.log.failed, waiting.value);
  }

  lemma {:induction false} AllAccounted(events: seq<Event>)
    ensures var s := Run(events); Accounted(s.log.handed, s.log.sent, s.log.failed, s.my.waitingWrite)
  {
    hide Step, Accounted, Moves, MoveOf;
    if events == [] {
      NothingHanded();
    } else {
      var rest, e := events[..|events| - 1], events[|events| - 1];
      AllAccounted(rest);
      WritesMove(Run(rest), e);
      NextIsFree(Run(rest), e);
      AccountedStep(Run(rest), Step(Run(rest), e), MoveOf(Run(rest), e));
    }
  }

  lemma NothingHanded()
    ensures Accounted(0, [], [], None)
  {
  }

  lemma NextIsFree(s: State, e: Event)
    ensures MoveOf(s, e).Sends? || MoveOf(s, e).Waits? ==> s.my.waitingWrite.None?
  {
  }

  /** Each write is given to a port once, fails once, or is waiting, and only one of the three; they
    are given to ports, and fail, in the order in which Node handed them over. */
  lemma {:induction false} WritesAreKept(events: seq<Event>)
    ensures var s := Run(events);
            && (forall w: nat ::
                  multiset(SentIds(s.log.sent))[w] + multiset(s.log.failed)[w]
                  + (if s.my.waitingWrite == Some(w) then 1 else 0)
                  == if w < s.log.handed then 1 else 0)
            && Increasing(SentIds(s.log.sent), s.log.handed) && Increasing(s.log.failed, s.log.handed)
  {
    hide Run, SentIds;
    AllAccounted(events);
    var s := Run(events);
    forall w: nat
      ensures multiset(SentIds(s.log.sent))[w] + multiset(s.log.failed)[w]
              + (if s.my.waitingWrite == Some(w) then 1 else 0)
              == if w < s.log.handed then 1 else 0
    {
      IdsCount(s.log.handed, w);
      assert (multiset(SentIds(s.log.sent)) + multiset(s.log.failed) + multiset(Held(s.my.waitingWrite)))[w]
          == multiset(Ids(s.log.handed))[w];
      assert multiset(Held(s.my.waitingWrite))[w] == if s.my.waitingWrite == Some(w) then 1 else 0;
    }
  }

  // ---- Nothing is forgotten ----------------------------------------------------------------------------

  /** A write waits, or data is requested for which the current port has not been asked. */
  predicate Unserved(s: State) { s.my.waitingWrite.Some? || (s.my.readRequested && s.log.asked != s.my.port) }

  /** A method that will go on to `_resumeIO` waits at the bottom. */
  predicate WillResume(frames: seq<Frame>) { frames != [] && (frames[0].Failing? || frames[0].Announcing?) }

  /** The stream is open, and nothing will serve what is still to be served. */
  predicate Neglected(s: State) { IsOpen(s) && !s.my.destroyed && !WillResume(s.frames) && Unserved(s) }

  /** The two ways to get there: the last listener or callback before `_resumeIO` throws; or a port
    that was delivered without being open, or has stopped being open, becomes open by itself. */
  predicate Neglects(s: State, e: Event) {
    && Unserved(s) && !s.my.destroyed && s.my.port.Some? && !s.my.closing
    && match e
       case EThrow => IsOpen(s) && WillResume(s.frames) && |s.frames| == 1
       case EPortChanges(q, live) => live && s.my.port == Some(q) && !IsOpen(s) && !WillResume(s.frames)
       case _ => false
  }

  /** A request that the current port has not answered is one that it has been asked for. */
  ghost predicate Joined(s: State) { s.my.port.Some? && s.my.readPort == s.my.port ==> s.log.asked == s.my.port }

  /** What matters here is the same, or there is nothing to serve any more. */
  predicate AsBefore(s: State, t: State) {
    && t.my.port == s.my.port && t.world.openPorts == s.world.openPorts && t.log.asked == s.log.asked
    && t.my.readRequested == s.my.readRequested && WillResume(t.frames) == WillResume(s.frames)
    && (t.my.waitingWrite == s.my.waitingWrite || t.my.waitingWrite.None?)
    && (t.my.readPort == s.my.readPort || t.my.readPort.None?)
    && (s.my.closing ==> t.my.closing) && (s.my.destroyed ==> t.my.destroyed)
  }

  lemma AsBeforeServes(s: State, t: State)
    requires AsBefore(s, t) && Joined(s)
    ensures Joined(t) && (Neglected(t) ==> Neglected(s))
  {
  }

  lemma CloseServes(s: State, callback: bool, reason: Option<nat>)
    ensures AsBefore(s, Close(s, callback, reason)) && AsBefore(s, DestroyRest(s))
  {
  }

  lemma FinishServes(s: State, n: nat)
    requires s.my.port.Some? || s.my.closing
    ensures Joined(FinishClose(s, n)) && !Neglected(FinishClose(s, n))
  {
  }

  lemma SettleServes(s: State, q: nat, ok: bool)
    requires Joined(s) && s.frames == []
    ensures Joined(Settle(s, q, ok)) && (Neglected(Settle(s, q, ok)) ==> Neglected(s))
  {
    hide FinishClose;
    if s.my.port == Some(q) { FinishServes(s, q); }
  }

  lemma RefusedServes(s: State, canceled: bool)
    requires s.log.asked == s.my.port
    ensures Joined(ReadRefused(s, canceled))
    ensures Neglected(ReadRefused(s, canceled)) ==> s.my.waitingWrite.Some? && Neglected(s)
  {
    hide Close;
    CloseServes(s.(my := s.my.(readPort := if s.my.readPort == s.my.port then None else s.my.readPort)), false, Some(0));
  }

  lemma ReadServes(s: State, start: Start)
    requires Joined(s)
    ensures Joined(Read(s, start))
    ensures Neglected(Read(s, start)) ==> s.my.waitingWrite.Some? && Neglected(s)
  {
    hide ReadRefused;
    if start.Refused? { RefusedServes(Asked(s.(my := s.my.(readRequested := true))), start.canceled); }
  }

  lemma ResumeServes(s: State, start: Start)
    requires Joined(s)
    ensures Joined(Resume(s, start)) && !Neglected(Resume(s, start))
  {
    hide Read;
    AsBeforeServes(s, SendWaiting(s));
    ReadServes(SendWaiting(s), start);
  }

  /** The state goes on being served, unless this event is what makes the stream neglect something. */
  ghost predicate Serves(s: State, t: State, e: Event) {
    Joined(t) && (!Neglected(s) ==> (Neglected(t) <==> Neglects(s, e)))
  }

  lemma ServeStep(s: State, e: Event)
    requires Inv(s) && Joined(s)
    ensures Serves(s, Step(s, e), e)
  {
    hide Inv, Joined, Serves, Close, OnClose, Opened, OpenFailed, Destroy, Read, ReadResolved, ReadRejected, HandOver,
         Return, Throw, PortChanges;
    match e
    case EOpened(live) => OpenedServes(s, live);
    case EOpenFailed => OpenFailedServes(s);
    case EOnClose(q, reason) => OnCloseServes(s, q, reason);
    case EDestroy => DestroyServes(s);
    case ERead(start) => StillServes(s, e) by { ReadServes(s, start); }
    case EReadResolved(_, _, _) => AnswerServes(s, e);
    case EReadRejected(_, _, _) => AnswerServes(s, e);
    case EWrite => HandOverServes(s);
    case EReturn(start) => ReturnServes(s, start);
    case EThrow => ThrowServes(s);
    case EPortChanges(q, live) => PortChangesServes(s, q, live);
    case _ => OtherServes(s, e);
  }

  lemma StillServes(s: State, e: Event)
    requires Joined(Step(s, e)) && (Neglected(Step(s, e)) ==> Neglected(s)) && !e.EThrow? && !e.EPortChanges?
    ensures Serves(s, Step(s, e), e)
  {
    hide Step, Joined, Neglected;
  }

  lemma OtherServes(s: State, e: Event)
    requires Joined(s)
    requires e.EOpen? || e.EClose? || e.ECloseSettled? || e.ECancelSettled? || e.EOnData? || e.EWriteSettled?
    ensures Serves(s, Step(s, e), e)
  {
    hide Close, Settle, Serves, Neglected, Joined, Deliver;
    StillServes(s, e) by {
      match e
      case EOpen => AsBeforeServes(s, Step(s, e));
      case EClose(callback) =>
        CloseServes(s, callback, None);
        AsBeforeServes(s, Step(s, e));
      case ECloseSettled(q, ok) => PromiseServes(s, e);
      case ECancelSettled(q, ok) => PromiseServes(s, e);
      case EOnData(q, data) => DeliverServes(s, q, data);
      case EWriteSettled(q, _, _) =>
        CloseServes(s.(world := s.world.(writes := s.world.writes - multiset{q})), false, Some(0));
        AsBeforeServes(s, Step(s, e));
    }
  }

  lemma PromiseServes(s: State, e: Event)
    requires Joined(s) && (e.ECloseSettled? || e.ECancelSettled?)
    ensures Joined(Step(s, e)) && (Neglected(Step(s, e)) ==> Neglected(s))
  {
    hide Settle;
    var t := if e.ECloseSettled? then s.(world := s.world.(closes := s.world.closes - multiset{e.q}))
             else s.(world := s.world.(cancels := s.world.cancels - multiset{e.q}));
    if s.frames == [] { SettleServes(t, e.q, e.ok); }
  }

  lemma DeliverServes(s: State, q: nat, data: Bytes)
    ensures Joined(Deliver(s, q, data)) && (Neglected(Deliver(s, q, data)) ==> Neglected(s))
  {
  }

  lemma OpenedServes(s: State, live: bool)
    requires Inv(s) && Joined(s)
    ensures Serves(s, Opened(s, live), EOpened(live))
  {
    hide Frames, Callbacks, Closes;
  }

  lemma OpenFailedServes(s: State)
    requires Joined(s)
    ensures Serves(s, OpenFailed(s), EOpenFailed)
  {
    hide FinishClose;
    if Concludes(s) {
      var t := FailWaiting(s.(my := s.my.(opening := false), world := s.world.(opening := None)));
      if s.my.closing { FinishServes(t, s.world.opening.value); }
    }
  }

  lemma OnCloseServes(s: State, q: nat, reason: Option<nat>)
    requires Joined(s)
    ensures Serves(s, OnClose(s, q, reason), EOnClose(q, reason))
  {
    hide FinishClose, Close, Joined, Neglected;
    StillServes(s, EOnClose(q, reason)) by {
      CloseServes(s, false, reason);
      AsBeforeServes(s, Close(s, false, reason));
      if s.my.port == Some(q) { FinishServes(s, q); }
    }
  }

  lemma DestroyServes(s: State)
    requires Joined(s)
    ensures Serves(s, Destroy(s), EDestroy)
  {
    hide DestroyRest;
    CloseServes(FailWaiting(s.(my := s.my.(destroyed := true))), false, None);
  }

  lemma AnswerServes(s: State, e: Event)
    requires Inv(s) && Joined(s) && (e.EReadResolved? || e.EReadRejected?)
    ensures Serves(s, Step(s, e), e)
  {
    hide Ports, Frames, Callbacks, Closes, Forget, Read, ReadRefused, Deliver, Neglected;
    StillServes(s, e) by {
      if s.frames == [] && e.q in s.world.requests {
        var t := Forget(s, e.q);
        AsBeforeServes(s, t) by { ForgetServes(s, e.q); }
        ForgetServes(s, e.q);
        ReadServes(t, e.start);
        if e.EReadResolved? { DeliverServes(t, e.q, e.data); }
        if e.EReadRejected? && s.my.port == Some(e.q) { RefusedServes(t, e.canceled); }
      }
    }
  }

  lemma ForgetServes(s: State, q: nat)
    ensures AsBefore(s, Forget(s, q))
  {
  }

  lemma HandOverServes(s: State)
    requires Joined(s)
    ensures Serves(s, HandOver(s), EWrite)
  {
  }

  lemma ReturnServes(s: State, start: Start)
    requires Joined(s)
    ensures Serves(s, Return(s, start), EReturn(start))
  {
    hide Joined, Neglected, Resume;
    StillServes(s, EReturn(start)) by {
      if s.frames != [] {
        if Top(s) == Failing([]) || Top(s) == Announcing {
          PopJoined(s);
          ResumeServes(Pop(s), start);
        } else {
          OtherReturnServes(s, start);
        }
      }
    }
  }

  lemma PopJoined(s: State)
    requires s.frames != [] && Joined(s)
    ensures Joined(Pop(s))
  {
  }

  lemma OtherReturnServes(s: State, start: Start)
    requires Joined(s) && s.frames != [] && Top(s) != Failing([]) && Top(s) != Announcing
    ensures Joined(Return(s, start)) && (Neglected(Return(s, start)) ==> Neglected(s))
  {
    hide Joined, Neglected, Resume, DestroyRest, FinishClose, WillResume;
    BottomStays(s);
    var t := Pop(s);
    if Top(s).Destroying? {
      CloseServes(t, false, None);
      AsBeforeServes(s, DestroyRest(t));
    } else if Top(s).FailedOpen? && s.my.closing {
      FinishServes(t, Top(s).attempt);
    } else {
      if Top(s).Callbacks() != [] { BottomReplaced(s, Return(s, start)); }
      AsBeforeServes(s, Return(s, start));
    }
  }

  lemma BottomStays(s: State)
    requires s.frames != [] && Top(s) != Failing([]) && Top(s) != Announcing
    ensures Top(s).Callbacks() == [] ==> WillResume(Pop(s).frames) == WillResume(s.frames)
  {
  }

  lemma BottomReplaced(s: State, t: State)
    requires s.frames != [] && t.frames != [] && |t.frames| == |s.frames| && Pop(t).frames == Pop(s).frames
    requires Top(t).Failing? == Top(s).Failing? && !Top(t).Announcing? && !Top(s).Announcing?
    ensures WillResume(t.frames) == WillResume(s.frames)
  {
    if |s.frames| > 1 { assert t.frames[0] == Pop(t).frames[0] && s.frames[0] == Pop(s).frames[0]; }
  }

  lemma ThrowServes(s: State)
    requires Joined(s)
    ensures Serves(s, Throw(s), EThrow)
  {
  }

  lemma PortChangesServes(s: State, q: nat, live: bool)
    requires Inv(s) && Joined(s)
    ensures Serves(s, PortChanges(s, q, live), EPortChanges(q, live))
  {
    hide Frames, Callbacks, Closes, Requests;
  }

  lemma {:induction false} AllJoined(events: seq<Event>)
    ensures Joined(Run(events))
  {
    hide Step, Joined, Inv, Serves;
    if events == [] {
      InitJoined();
    } else {
      var rest, e := events[..|events| - 1], events[|events| - 1];
      AllJoined(rest);
      Safety(rest);
      ServeStep(Run(rest), e);
      ServedJoined(Run(rest), Step(Run(rest), e), e);
    }
  }

  lemma InitJoined()
    ensures Joined(Init())
  {
  }

  lemma ServedJoined(s: State, t: State, e: Event)
    requires Serves(s, t, e)
    ensures Joined(t)
  {
  }

  /** Exactly when an open stream comes to neglect a write that waits or data that is requested. */
  lemma {:induction false} NeglectBegins(events: seq<Event>, e: Event)
    requires !Neglected(Run(events))
    ensures Neglected(Run(events + [e])) <==> Neglects(Run(events), e)
  {
    hide Run, Step, Joined, Inv, Neglected, Neglects;
    AllJoined(events);
    Safety(events);
    RunSnoc(events, e);
    ServeStep(Run(events), e);
  }

  /** No exception, and no port that becomes open by itself. */
  ghost predicate Undisturbed(events: seq<Event>) {
    forall e :: e in events ==> !e.EThrow? && !(e.EPortChanges? && e.live)
  }

  /** In such a run, a stream that is open and has not been destroyed has no write waiting, and has
    asked its port for the data requested, unless a method that will see to both is still waiting. */
  lemma {:induction false} NothingNeglected(events: seq<Event>)
    requires Undisturbed(events)
    ensures !Neglected(Run(events))
  {
    hide Step, Neglected;
    if events == [] {
      assert !Neglected(Init()) by { InitServed(); }
    } else {
      var rest, e := events[..|events| - 1], events[|events| - 1];
      assert events == rest + [e] && e in events;
      forall x | x in rest ensures x in events {}
      NothingNeglected(rest);
      NeglectBegins(rest, e);
    }
  }

  lemma InitServed()
    ensures !Neglected(Init())
  {
  }
}
