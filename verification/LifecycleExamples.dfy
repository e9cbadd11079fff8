/** Runs that show why the conditions of the life-cycle theorems are needed. */
module LifecycleExamples {
  import opened Common
  import opened Lifecycle
  import opened LifecycleTheorems
  import opened LifecycleClosing
  import opened LifecycleData

  lemma RunTake(events: seq<Event>, k: nat)
    requires k < |events|
    ensures Run(events[..k + 1]) == Step(Run(events[..k]), events[k])
  {
    assert events[..k + 1][..k] == events[..k];
  }

  lemma RunNothing(events: seq<Event>)
    ensures Run(events[..0]) == Init()
  {
  }

  /** An ordinary connection whose close has just been acknowledged: the 'close' listener runs. */
  const CLOSED: seq<Event> := [EOpen, EOpened(true), EReturn(Granted), EClose(true), ECloseSettled(0, true)]

  lemma ConnectionOpens(events: seq<Event>)
    requires 3 <= |events| && events[0] == EOpen && events[1] == EOpened(true) && events[2] == EReturn(Granted)
    ensures Run(events[..3]) == OpenedOnce()
  {
    hide Run, Step;
    RunNothing(events);
    RunTake(events, 0);
    RunTake(events, 1);
    RunTake(events, 2);
    OpeningSteps();
  }

  function OpenedOnce(): State {
    State(Fields(false, false, false, Some(0), false, None, None, [], None), [],
          World(1, {0}, None, multiset{}, multiset{}, multiset{}, multiset{}), NOTHING)
  }

  lemma OpeningSteps()
    ensures Step(Step(Step(Init(), EOpen), EOpened(true)), EReturn(Granted)) == OpenedOnce()
  {
    assert {} + {0} == {0};
  }

  function ClosedOnce(): State {
    State(Fields(false, false, false, None, true, None, None, [], None), [Finishing([0])],
          World(1, {0}, None, multiset{}, multiset{}, multiset{}, multiset{}), NOTHING.(registered := 1, closed := [0]))
  }

  lemma ClosingSteps()
    ensures Step(Step(OpenedOnce(), EClose(true)), ECloseSettled(0, true)) == ClosedOnce()
  {
    var callbacks: seq<nat> := [0];
    assert [] + callbacks == callbacks;
    assert multiset{} + multiset{0} - multiset{0} == multiset{};
  }

  lemma ConnectionCloses(events: seq<Event>)
    requires 5 <= |events| && events[..5] == CLOSED
    ensures Run(events[..5]) == ClosedOnce()
  {
    hide Run, Step;
    forall i | 0 <= i < 5 ensures events[i] == CLOSED[i] { assert events[..5][i] == events[i]; }
    ConnectionOpens(events);
    RunTake(events, 3);
    RunTake(events, 4);
    ClosingSteps();
  }

  /** A 'close' listener that destroys the stream: the callback of `destroy` overtakes the one of the
    earlier `close`. */
  const OVERTAKEN: seq<Event> := CLOSED + [EDestroy, EReturn(Granted), EReturn(Granted)]

  lemma DestroyOvertakes()
    ensures var s := Run(OVERTAKEN); Quiescent(s) && s.log.registered == 2 && s.log.ran == [1, 0]
  {
    hide Run;
    assert OVERTAKEN[..5] == CLOSED;
    ConnectionCloses(OVERTAKEN);
    RunTake(OVERTAKEN, 5);
    RunTake(OVERTAKEN, 6);
    RunTake(OVERTAKEN, 7);
    assert OVERTAKEN[..8] == OVERTAKEN;
  }

  /** A 'close' listener that throws: the callback never runs. */
  const THROWN: seq<Event> := CLOSED + [EThrow]

  lemma ThrowLosesCallback()
    ensures var s := Run(THROWN); Quiescent(s) && s.log.registered == 1 && s.log.ran == [] && s.log.dropped == [0]
  {
    hide Run;
    assert THROWN[..5] == CLOSED;
    ConnectionCloses(THROWN);
    RunTake(THROWN, 5);
    assert THROWN[..6] == THROWN;
  }

  /** An opening that is cancelled while a write waits for it, and whose write callback throws:
    `port.close()` is never called. */
  const STUCK: seq<Event> := [EOpen, EWrite, EClose(true), EOpened(true), EThrow]

  lemma ThrowStopsClose()
    ensures var s := Run(STUCK); Stuck(s) && s.my.port == Some(0) && s.frames == [] && s.log.ran == []
  {
    hide Run;
    RunNothing(STUCK);
    RunTake(STUCK, 0);
    RunTake(STUCK, 1);
    RunTake(STUCK, 2);
    RunTake(STUCK, 3);
    RunTake(STUCK, 4);
    assert STUCK[..5] == STUCK;
  }

  /** An 'open' listener that throws: the write that waited for the port is not given to it, and the
    stream is open. */
  const FORGOTTEN: seq<Event> := [EOpen, EWrite, EOpened(true), EThrow]

  lemma ThrowForgetsWrite()
    ensures var s := Run(FORGOTTEN); IsOpen(s) && s.frames == [] && s.my.waitingWrite == Some(0) && Neglected(s)
  {
    hide Run;
    RunNothing(FORGOTTEN);
    RunTake(FORGOTTEN, 0);
    RunTake(FORGOTTEN, 1);
    RunTake(FORGOTTEN, 2);
    RunTake(FORGOTTEN, 3);
    assert FORGOTTEN[..4] == FORGOTTEN;
  }

  /** An opening that is cancelled and whose port refuses to close. */
  const REFUSED: seq<Event> := [EOpen, EClose(true), EOpened(true), ECancelSettled(0, false)]

  lemma RefusedCancelIsOpen()
    ensures var s := Run(REFUSED);
            && Run(REFUSED[..2]).my.opening && Run(REFUSED[..2]).my.closing && Clean(Run(REFUSED[..2]))
            && OpenAs(s, 0) && s.log.closed == [] && s.log.ran == [0]
  {
    hide Run;
    RunNothing(REFUSED);
    RunTake(REFUSED, 0);
    RunTake(REFUSED, 1);
    RunTake(REFUSED, 2);
    RunTake(REFUSED, 3);
    assert REFUSED[..4] == REFUSED;
  }

  /** A port that stops being open without its hook stays attached while `open` is called again; its
    late hook ends the close that cancels this opening. */
  const STALE: seq<Event> := [
    EOpen, EOpened(true), EReturn(Granted), EPortChanges(0, false), EOpen, EClose(true), EOnClose(0, None),
    EReturn(Granted), EReturn(Granted), EOpened(true)]

  /** What is left of attempt 0 ends the close of attempt 1, whose port then arrives. */
  lemma CloseIsTaken(s: State, e: Event)
    requires s.my.opening && s.my.closing && s.my.closeCallbacks == [0] && s.log.closed == [] && s.log.ran == []
    requires s.world.opening == Some(1) && s.world.openPorts == {}
    requires || (e == EOnClose(0, None) && s.my.port == Some(0) && s.frames == [])
             || (e == EReturn(Granted) && s.my.port.None? && s.frames == [FailedOpen(0)])
    ensures var t := Step(Step(Step(Step(s, e), EReturn(Granted)), EReturn(Granted)), EOpened(true));
            OpenAs(t, 1) && t.log.closed == [0] && t.log.ran == [0]
  {
    hide Step, OpenAs;
    var t := Step(s, e);
    ThenCallback(s, e);
    CallbackReturns(t);
    PortArrives(Step(Step(t, EReturn(Granted)), EReturn(Granted)));
  }

  lemma ThenCallback(s: State, e: Event)
    requires s.my.opening && s.my.closing && s.my.closeCallbacks == [0] && s.log.closed == [] && s.log.ran == []
    requires || (e == EOnClose(0, None) && s.my.port == Some(0) && s.frames == [] && s.world.openPorts == {})
             || (e == EReturn(Granted) && s.my.port.None? && s.frames == [FailedOpen(0)])
    ensures var t := Step(s, e);
            && t.frames == [Finishing([0])] && t.log.closed == [0] && t.log.ran == []
            && !t.my.closing && t.world == s.world
  {
  }

  lemma CallbackReturns(s: State)
    requires s.frames == [Finishing([0])] && s.log.ran == []
    ensures Step(Step(s, EReturn(Granted)), EReturn(Granted)) == s.(frames := [], log := s.log.(ran := [0]))
  {
  }

  lemma PortArrives(s: State)
    requires s.frames == [] && s.world.opening == Some(1) && !s.my.closing
    ensures OpenAs(Step(s, EOpened(true)), 1) && Step(s, EOpened(true)).log == s.log
  {
  }

  lemma StalePortAttached()
    ensures var s := Run(STALE[..6]);
            && s.my.opening && s.my.closing && s.my.port == Some(0) && s.frames == [] && s.my.waitingWrite.None?
            && s.world == World(2, {}, Some(1), multiset{}, multiset{}, multiset{}, multiset{})
            && s.my.closeCallbacks == [0] && s.log == NOTHING.(registered := 1)
  {
    hide Run;
    ConnectionOpens(STALE);
    RunTake(STALE, 3);
    RunTake(STALE, 4);
    RunTake(STALE, 5);
    assert {0} - {0} == {};
  }

  lemma CancelIsLost()
    ensures var s := Run(STALE); OpenAs(s, 1) && s.log.closed == [0] && s.log.ran == [0]
  {
    hide Run, Step, OpenAs;
    StalePortAttached();
    RunTake(STALE, 6);
    RunTake(STALE, 7);
    RunTake(STALE, 8);
    RunTake(STALE, 9);
    assert STALE[..10] == STALE;
    CloseIsTaken(Run(STALE[..6]), EOnClose(0, None));
  }

  /** The callback of a write that fails with its opening opens the port again and cancels that: the
    handler of the failed opening then takes the close for its own. */
  const MISTAKEN: seq<Event> := [
    EOpen, EWrite, EOpenFailed, EOpen, EClose(true), EReturn(Granted), EReturn(Granted), EReturn(Granted), EOpened(true)]

  lemma FailedOpenWaits()
    ensures var s := Run(MISTAKEN[..5]);
            && s.my.opening && s.my.closing && s.my.port.None? && s.frames == [FailedOpen(0)] && s.my.waitingWrite.None?
            && s.world == World(2, {}, Some(1), multiset{}, multiset{}, multiset{}, multiset{})
            && s.my.closeCallbacks == [0] && s.log == NOTHING.(registered := 1, handed := 1, failed := [0])
  {
    hide Run;
    RunNothing(MISTAKEN);
    RunTake(MISTAKEN, 0);
    RunTake(MISTAKEN, 1);
    RunTake(MISTAKEN, 2);
    RunTake(MISTAKEN, 3);
    RunTake(MISTAKEN, 4);
  }

  lemma CancelIsMistaken()
    ensures var s := Run(MISTAKEN); OpenAs(s, 1) && s.log.closed == [0] && s.log.ran == [0]
  {
    hide Run, Step, OpenAs;
    FailedOpenWaits();
    RunTake(MISTAKEN, 5);
    RunTake(MISTAKEN, 6);
    RunTake(MISTAKEN, 7);
    RunTake(MISTAKEN, 8);
    assert MISTAKEN[..9] == MISTAKEN;
    CloseIsTaken(Run(MISTAKEN[..5]), EReturn(Granted));
  }
}
