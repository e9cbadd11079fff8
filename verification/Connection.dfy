/** The native handle that both threads share.  What the binding and the reactor do with it is proved
  to be a run of the transition system, so everything proved about all runs holds for its fields. */
module Connections {
  import opened Common
  import opened Protocol
  import ProtocolTheorems

  const MAX_ID: nat := 0xffff_ffff

  /** The port behind the session mutex. */
  datatype Session = Free | Locked | Absent

  function SessionOf(phase: Phase): Session {
    match phase
    case Opening => Absent
    case Released => Absent
    case Gone => Absent
    case Bursting(_) => Locked
    case _ => Free
  }

  lemma RunSnoc(history: seq<Action>, a: Action)
    ensures Run(history + [a]) == Step(Run(history), a)
  {
    assert (history + [a])[..|history|] == history;
  }

  /** What a submission does to the JavaScript side once `enqueue` has answered. */
  function AfterSubmit(js: Binding, c: Command, ok: bool): Binding {
    if ok && c.Credit? then js.(readBytes := js.readBytes + c.bytes, readSlots := js.readSlots + c.slots)
    else if ok then js.(pending := js.pending[c.id := c.Ordered()])
    else if c.Ordered() then js.(ordered := js.ordered - 1)
    else if c.Read? then js.(reading := false)
    else js
  }

  lemma SendStep(s: State, c: Command)
    requires s.call == Sending(c)
    ensures var t := JsSend(s);
            var ok := ReceiverOpen(s.rx.phase) && |s.channel| < CHANNEL_CAPACITY;
            && t.js == AfterSubmit(s.js, c, ok) && t.call == NoCall && t.delivery == s.delivery && t.rx == s.rx
            && t.stop == s.stop && t.callbacks == s.callbacks
            && t.channel == (if ok then s.channel + [c] else s.channel)
            && t.pendingOps == (if !ok && c.Ordered() then s.pendingOps - 1 else s.pendingOps)
            && t.log.received == s.log.received && t.log.accepted == s.log.accepted
            && t.log.produced == s.log.produced && t.log.attempted == s.log.attempted
            && t.log.unsettled == (if ok && c.Write? then s.log.unsettled + {c.id} else s.log.unsettled)
            && (ok || !c.Write? ==> t.log.gap == s.log.gap)
  {
  }

  lemma EnqueueSteps(s: State, c: Command)
    requires s.call == Enqueuing(c)
    ensures var t := Step(Step(s, AEnqueue), ASend);
            var ok := !s.stop && (c.Ordered() ==> s.pendingOps < MAX_PENDING_OPS)
                      && ReceiverOpen(s.rx.phase) && |s.channel| < CHANNEL_CAPACITY;
            && t.js == AfterSubmit(s.js, c, ok) && t.call == NoCall && t.delivery == s.delivery && t.rx == s.rx
            && t.stop == s.stop && t.callbacks == s.callbacks
            && t.channel == (if ok then s.channel + [c] else s.channel)
            && t.pendingOps == (if ok && c.Ordered() then s.pendingOps + 1 else s.pendingOps)
            && t.log.received == s.log.received && t.log.accepted == s.log.accepted
            && t.log.produced == s.log.produced && t.log.attempted == s.log.attempted
            && t.log.unsettled == (if ok && c.Write? then s.log.unsettled + {c.id} else s.log.unsettled)
            && (ok || !c.Write? ==> t.log.gap == s.log.gap)
  {
    hide JsSend;
    var t := JsEnqueue(s);
    if t.call.Sending? { SendStep(t, c); } else { SendNothing(t); }
  }

  lemma SendNothing(s: State)
    requires !s.call.Sending?
    ensures JsSend(s) == s
  {
  }

  /** While the receiver lives, a submission that has passed the stop check finds room. */
  lemma Admitted(history: seq<Action>, c: Command)
    requires Run(history).call == Enqueuing(c)
    ensures var s := Run(history);
            !s.stop && ReceiverOpen(s.rx.phase) ==>
              (c.Ordered() ==> s.pendingOps < MAX_PENDING_OPS) && |s.channel| < CHANNEL_CAPACITY
  {
    hide Run;
    ProtocolTheorems.SubmissionsAreAdmitted(history);
    ProtocolTheorems.SubmissionsAreAdmitted(history + [AEnqueue]);
    RunSnoc(history, AEnqueue);
  }

  /** The reactor's half of a state, and what the binding's half must not touch. */
  ghost predicate SameReactor(s: State, t: State) { t.rx == s.rx && t.log.produced == s.log.produced }

  /** What has become of writes: a step that concerns none. */
  ghost predicate SameWrites(s: State, t: State) {
    t.log.attempted == s.log.attempted && t.log.gap == s.log.gap && t.log.unsettled == s.log.unsettled
  }

  /** A step that the native handle does not take part in. */
  ghost predicate SameNative(s: State, t: State) {
    && t.stop == s.stop && t.pendingOps == s.pendingOps && t.channel == s.channel && t.callbacks == s.callbacks
    && t.rx == s.rx && t.log.accepted == s.log.accepted && t.log.produced == s.log.produced && SameWrites(s, t)
  }

  datatype WriteResult = Inline | Queued | Refused

  /** `NativePort`: the control block, the command channel and the callback queue.  `submitted` is
    every payload given to `write`, and `accepted` what the device has taken. */
  class NativePort {
    var stop: bool
    var pendingOps: int
    var session: Session
    var channel: seq<Command>
    var receiverOpen: bool
    var callbacks: seq<Event>
    var submitted: Bytes
    var accepted: seq<Cell>
    ghost var history: seq<Action>

    ghost predicate Shows(s: State)
      reads this
    {
      && stop == s.stop && pendingOps == s.pendingOps && channel == s.channel && callbacks == s.callbacks
      && receiverOpen == ReceiverOpen(s.rx.phase) && session == SessionOf(s.rx.phase)
      && submitted == s.log.attempted && accepted == s.log.accepted
    }

    ghost predicate Valid()
      reads this
    {
      Shows(Run(history))
    }

    constructor ()
      ensures Valid() && history == []
    {
      stop, pendingOps, session, channel, receiverOpen, callbacks := false, 0, Absent, [], true, [];
      submitted, accepted, history := [], [], [];
    }

    /** The history of a step that changes nothing here. */
    ghost method Record(a: Action)
      requires Valid() && SameNative(Run(history), Step(Run(history), a))
      modifies this`history
      ensures Valid() && history == old(history) + [a] && Run(history) == Step(old(Run(history)), a)
    {
      hide Run, Step;
      RunSnoc(history, a);
      history := history + [a];
    }

    /** `enqueue`: reserve, check, try to send, and undo the reservation on failure. */
    method Submit(command: Command) returns (ok: bool)
      modifies this`channel, this`pendingOps
      ensures ok == (!stop && (command.Ordered() ==> old(pendingOps) < MAX_PENDING_OPS)
                     && receiverOpen && |old(channel)| < CHANNEL_CAPACITY)
      ensures channel == if ok then old(channel) + [command] else old(channel)
      ensures pendingOps == if ok && command.Ordered() then old(pendingOps) + 1 else old(pendingOps)
    {
      hide Run;
      if stop { return false; }
      var isOrdered := command.Ordered();
      if isOrdered {
        var before := pendingOps;
        pendingOps := pendingOps + 1;
        if before >= MAX_PENDING_OPS {
          pendingOps := pendingOps - 1;
          return false;
        }
      }
      if !receiverOpen || |channel| >= CHANNEL_CAPACITY {
        if isOrdered { pendingOps := pendingOps - 1; }
        return false;
      }
      channel := channel + [command];
      return true;
    }

    /** The same as two steps of a run that has come to this call. */
    method Enqueue(command: Command) returns (ok: bool)
      requires Valid() && Run(history).call == Enqueuing(command) && !command.Write?
      modifies this`channel, this`pendingOps, this`history
      ensures Valid() && history == old(history) + [AEnqueue] + [ASend]
      ensures ok == (!stop && receiverOpen)
      ensures channel == if ok then old(channel) + [command] else old(channel)
      ensures pendingOps == if ok && command.Ordered() then old(pendingOps) + 1 else old(pendingOps)
      ensures var s, t := old(Run(history)), Run(history);
              && t.js == AfterSubmit(s.js, command, ok) && t.call == NoCall && t.delivery == s.delivery
              && SameReactor(s, t) && SameWrites(s, t) && t.log.received == s.log.received
    {
      hide Run, Step, AfterSubmit;
      Admitted(history, command);
      EnqueueSteps(Run(history), command);
      RunSnoc(history, AEnqueue);
      RunSnoc(history + [AEnqueue], ASend);
      history := history + [AEnqueue] + [ASend];
      ok := Submit(command);
    }

    method ReadCredit(bytes: int, slots: int) returns (ok: bool)
      requires Valid() && bytes >= 0 && slots >= 0 && Run(history).call == Enqueuing(Credit(bytes, slots))
      requires 1 <= bytes <= CHUNK_SIZE && 1 <= slots <= READ_SLOTS    // proved by every caller
      modifies this`channel, this`pendingOps, this`history
      ensures Valid() && history == old(history) + [AEnqueue] + [ASend]
      ensures ok == (!stop && receiverOpen)
      ensures channel == old(channel) + (if ok then [Credit(bytes, slots)] else [])
      ensures var s, t := old(Run(history)), Run(history);
              && t.js == AfterSubmit(s.js, Credit(bytes, slots), ok) && t.call == NoCall && t.delivery == s.delivery
              && SameReactor(s, t) && SameWrites(s, t) && t.log.received == s.log.received
    {
      ok := Enqueue(Credit(bytes, slots));
    }

    /** The inline attempt of `write`: `device` is the answer of `try_write`, None for an error.
      The lock is never waited for, and no earlier ordered operation is bypassed. */
    method TryInline(cells: seq<Cell>, allowInline: bool, device: Option<nat>) returns (taken: Option<nat>)
      requires device.Some? ==> device.value <= |cells|
      modifies this`accepted
      ensures taken == if allowInline && pendingOps == 0 && session.Free? then device else None
      ensures accepted == old(accepted) + cells[..Count(taken)]
    {
      taken := None;
      if allowInline && pendingOps == 0 && session.Free? && device.Some? {
        taken := device;
        accepted := accepted + cells[..device.value];
      }
    }

    /** `write`, and `writev` once its segments are in one buffer, for any arguments.  What the device
      does not take at once is queued; only a refused payload that has been taken in part loses bytes. */
    method Write(id: nat, data: Bytes, allowInline: bool, device: Option<nat>)
      returns (r: WriteResult, taken: Option<nat>)
      requires device.Some? ==> device.value <= |data|
      modifies this`submitted, this`accepted, this`channel, this`pendingOps
      ensures if |data| <= CHUNK_SIZE && !stop && allowInline && old(pendingOps) == 0 && session.Free?
              then taken == device else taken.None?
      ensures if |data| > CHUNK_SIZE || stop
              then r.Refused? && taken.None? && submitted == old(submitted)
              else submitted == old(submitted) + data && (r.Inline? <==> taken == Some(|data|))
                   && (r.Refused? ==> !receiverOpen || old(pendingOps) >= MAX_PENDING_OPS
                                      || |old(channel)| >= CHANNEL_CAPACITY)
                   && (r.Queued? ==> receiverOpen && old(pendingOps) < MAX_PENDING_OPS && |old(channel)| < CHANNEL_CAPACITY)
      ensures var cells := Tag(data, |old(submitted)|);
              && accepted == old(accepted) + cells[..Count(taken)]
              && channel == old(channel) + (if r.Queued? then [Command.Write(id, cells[Count(taken)..])] else [])
              && pendingOps == old(pendingOps) + (if r.Queued? then 1 else 0)
    {
      hide Run, Tag;
      if |data| > CHUNK_SIZE { return Refused, None; }
      if stop { return Refused, None; }
      var cells := Tag(data, |submitted|);
      submitted := submitted + data;
      taken := TryInline(cells, allowInline, device);
      if taken == Some(|data|) { return Inline, taken; }
      var ok := Submit(Command.Write(id, cells[Count(taken)..]));
      return if ok then Queued else Refused, taken;
    }

    /** The same as the steps of a run whose binding makes this call. */
    method WriteThrough(id: nat, data: Bytes, allowInline: bool, device: Option<nat>)
      returns (r: WriteResult, taken: Option<nat>)
      requires Valid()
      requires var s := Run(history);
               s.call == NoCall && CanSubmit(s.js) && id !in s.js.pending && allowInline == (s.js.ordered + 1 == 1)
      requires |data| <= CHUNK_SIZE && (device.Some? ==> device.value <= |data|)
      modifies this`submitted, this`accepted, this`channel, this`pendingOps, this`history
      ensures Valid()
      ensures taken == if !stop && allowInline && old(pendingOps) == 0 && session.Free? then device else None
      ensures r.Refused? <==> stop || (!receiverOpen && taken != Some(|data|))
      ensures r.Inline? <==> taken == Some(|data|)
      ensures submitted == if stop then old(submitted) else old(submitted) + data
      ensures var s, t := old(Run(history)), Run(history);
              && t.call == NoCall && t.delivery == s.delivery && SameReactor(s, t) && t.log.received == s.log.received
              && t.js == (if r.Queued? then s.js.(ordered := s.js.ordered + 1, pending := s.js.pending[id := true]) else s.js)
              && t.log.unsettled == (if r.Queued? then s.log.unsettled + {id} else s.log.unsettled)
              && (!r.Refused? ==> t.log.gap == s.log.gap && t.log.attempted == s.log.attempted + data)
    {
      hide Run, Step, Tag, WriteSteps;
      ghost var s := Run(history);
      r, taken := Write(id, data, allowInline, device);
      if !stop {
        WriteAdmitted(history, id, data, taken);
        WriteRuns(s, id, data, taken);
        RunWrite(history, id, data, taken);
        history := history + WriteSteps(id, data, taken);
      }
    }
  }

  function Count(taken: Option<nat>): nat { if taken.Some? then taken.value else 0 }

  /** The steps of one native write. */
  function WriteSteps(id: nat, data: Bytes, taken: Option<nat>): seq<Action> {
    [AWrite(id, data), ALoad, ATryWrite(taken), AEnqueue, ASend]
  }

  lemma RunWrite(history: seq<Action>, id: nat, data: Bytes, taken: Option<nat>)
    ensures Run(history + WriteSteps(id, data, taken))
         == Step(Step(Step(Step(Step(Run(history), AWrite(id, data)), ALoad), ATryWrite(taken)), AEnqueue), ASend)
  {
    hide Run, Step;
    var h := history;
    RunSnoc(h, AWrite(id, data));
    RunSnoc(h + [AWrite(id, data)], ALoad);
    RunSnoc(h + [AWrite(id, data)] + [ALoad], ATryWrite(taken));
    RunSnoc(h + [AWrite(id, data)] + [ALoad] + [ATryWrite(taken)], AEnqueue);
    RunSnoc(h + [AWrite(id, data)] + [ALoad] + [ATryWrite(taken)] + [AEnqueue], ASend);
    assert h + WriteSteps(id, data, taken)
        == h + [AWrite(id, data)] + [ALoad] + [ATryWrite(taken)] + [AEnqueue] + [ASend];
  }

  /** A write that is not taken whole finds room while the receiver lives. */
  lemma WriteAdmitted(history: seq<Action>, id: nat, data: Bytes, taken: Option<nat>)
    requires var s := Run(history);
             && s.call == NoCall && CanSubmit(s.js) && id !in s.js.pending && |data| <= CHUNK_SIZE && !s.stop
             && (taken.Some? ==> s.js.ordered == 0 && s.pendingOps == 0 && SessionOf(s.rx.phase).Free? && taken.value <= |data|)
    ensures var s := Run(history);
            taken != Some(|data|) && ReceiverOpen(s.rx.phase) ==>
              s.pendingOps < MAX_PENDING_OPS && |s.channel| < CHANNEL_CAPACITY
  {
    hide Run, Step, Tag, CanSubmit, SessionOf;
    var s := Run(history);
    var cells := Tag(data, |s.log.attempted|);
    var h := history + [AWrite(id, data)];
    RunSnoc(history, AWrite(id, data));
    RunSnoc(h, ALoad);
    RunSnoc(h + [ALoad], ATryWrite(taken));
    AttemptStep(s, id, data);
    InlineSteps(Run(h), id, cells, s.js.ordered + 1 == 1, taken);
    if taken != Some(|data|) { Admitted(h + [ALoad] + [ATryWrite(taken)], Command.Write(id, cells[Count(taken)..])); }
  }

  /** Everything but the reactor's half and what it is told. */
  ghost predicate SameElsewhere(s: State, t: State) {
    && t.delivery == s.delivery && t.rx == s.rx && t.stop == s.stop && t.callbacks == s.callbacks
    && t.log.received == s.log.received && t.log.produced == s.log.produced
  }

  lemma AttemptStep(s: State, id: nat, data: Bytes)
    requires s.call == NoCall && CanSubmit(s.js) && id !in s.js.pending && |data| <= CHUNK_SIZE && !s.stop
    ensures var t, cells := Step(s, AWrite(id, data)), Tag(data, |s.log.attempted|);
            && SameElsewhere(s, t) && t.call == Checking(id, cells, s.js.ordered + 1 == 1)
            && t.js == s.js.(ordered := s.js.ordered + 1) && t.pendingOps == s.pendingOps && t.channel == s.channel
            && t.log.attempted == s.log.attempted + data && t.log.accepted == s.log.accepted
            && t.log.gap == s.log.gap && t.log.unsettled == s.log.unsettled
  {
  }

  lemma InlineSteps(s: State, id: nat, cells: seq<Cell>, allowInline: bool, taken: Option<nat>)
    requires s.call == Checking(id, cells, allowInline)
    requires taken.Some? ==> allowInline && s.pendingOps == 0 && SessionOf(s.rx.phase).Free? && taken.value <= |cells|
    ensures var t := Step(Step(s, ALoad), ATryWrite(taken));
            && SameElsewhere(s, t) && t.pendingOps == s.pendingOps && t.channel == s.channel && SameWrites(s, t)
            && t.log.accepted == s.log.accepted + cells[..Count(taken)]
            && (if taken == Some(|cells|) then t.call == NoCall && t.js == s.js.(ordered := s.js.ordered - 1)
                else t.call == Enqueuing(Write(id, cells[Count(taken)..])) && t.js == s.js)
  {
    assert cells[0..] == cells && s.log.accepted + [] == s.log.accepted;
  }

  /** What a write changes, with `taken` accepted inline and the rest queued if `ok`. */
  ghost predicate Written(s: State, t: State, id: nat, data: Bytes, taken: Option<nat>, ok: bool)
    requires Count(taken) <= |data|
  {
    var cells := Tag(data, |s.log.attempted|);
    && SameElsewhere(s, t) && t.call == NoCall
    && t.js == (if ok then s.js.(ordered := s.js.ordered + 1, pending := s.js.pending[id := true]) else s.js)
    && t.channel == s.channel + (if ok then [Command.Write(id, cells[Count(taken)..])] else [])
    && t.pendingOps == s.pendingOps + (if ok then 1 else 0)
    && t.log.attempted == s.log.attempted + data
    && t.log.accepted == s.log.accepted + cells[..Count(taken)]
    && t.log.unsettled == (if ok then s.log.unsettled + {id} else s.log.unsettled)
    && (ok || taken == Some(|data|) ==> t.log.gap == s.log.gap)
  }

  /** The steps of a native write do what the native method does. */
  lemma WriteRuns(s: State, id: nat, data: Bytes, taken: Option<nat>)
    requires s.call == NoCall && CanSubmit(s.js) && id !in s.js.pending && |data| <= CHUNK_SIZE && !s.stop
    requires taken.Some? ==> s.js.ordered == 0 && s.pendingOps == 0 && SessionOf(s.rx.phase).Free? && taken.value <= |data|
    ensures var t := Step(Step(Step(Step(Step(s, AWrite(id, data)), ALoad), ATryWrite(taken)), AEnqueue), ASend);
            Written(s, t, id, data, taken,
                    taken != Some(|data|) && s.pendingOps < MAX_PENDING_OPS && ReceiverOpen(s.rx.phase)
                    && |s.channel| < CHANNEL_CAPACITY)
  {
    hide Step, Tag, CanSubmit, SessionOf, Written;
    var cells := Tag(data, |s.log.attempted|);
    AttemptStep(s, id, data);
    var u := Step(s, AWrite(id, data));
    InlineSteps(u, id, cells, s.js.ordered + 1 == 1, taken);
    var v := Step(Step(u, ALoad), ATryWrite(taken));
    if taken == Some(|data|) {
      NothingToSend(v);
      WrittenInline(s, u, v, id, data);
    } else {
      var c := Command.Write(id, cells[Count(taken)..]);
      EnqueueSteps(v, c);
      WrittenLater(s, u, v, Step(Step(v, AEnqueue), ASend), id, data, taken);
    }
  }

  lemma WrittenInline(s: State, u: State, v: State, id: nat, data: Bytes)
    requires SameElsewhere(s, u) && u.js == s.js.(ordered := s.js.ordered + 1)
    requires u.pendingOps == s.pendingOps && u.channel == s.channel
    requires u.log.attempted == s.log.attempted + data && u.log.accepted == s.log.accepted
    requires u.log.gap == s.log.gap && u.log.unsettled == s.log.unsettled
    requires SameElsewhere(u, v) && v.pendingOps == u.pendingOps && v.channel == u.channel && SameWrites(u, v)
    requires v.log.accepted == u.log.accepted + Tag(data, |s.log.attempted|)[..|data|]
    requires v.call == NoCall && v.js == u.js.(ordered := u.js.ordered - 1)
    ensures Written(s, v, id, data, Some(|data|), false)
  {
    hide Tag;
    assert s.channel + [] == s.channel;
  }

  lemma WrittenLater(s: State, u: State, v: State, t: State, id: nat, data: Bytes, taken: Option<nat>)
    requires Count(taken) <= |data| && taken != Some(|data|)
    requires SameElsewhere(s, u) && u.js == s.js.(ordered := s.js.ordered + 1)
    requires u.pendingOps == s.pendingOps && u.channel == s.channel
    requires u.log.attempted == s.log.attempted + data && u.log.accepted == s.log.accepted
    requires u.log.gap == s.log.gap && u.log.unsettled == s.log.unsettled
    requires SameElsewhere(u, v) && v.pendingOps == u.pendingOps && v.channel == u.channel && SameWrites(u, v)
    requires v.log.accepted == u.log.accepted + Tag(data, |s.log.attempted|)[..Count(taken)] && v.js == u.js
    requires var c := Command.Write(id, Tag(data, |s.log.attempted|)[Count(taken)..]);
             var ok := s.pendingOps < MAX_PENDING_OPS && ReceiverOpen(s.rx.phase) && |s.channel| < CHANNEL_CAPACITY;
             && t.js == AfterSubmit(v.js, c, ok) && t.call == NoCall && t.delivery == v.delivery && t.rx == v.rx
             && t.stop == v.stop && t.callbacks == v.callbacks
             && t.channel == (if ok then v.channel + [c] else v.channel)
             && t.pendingOps == (if ok then v.pendingOps + 1 else v.pendingOps)
             && t.log.received == v.log.received && t.log.accepted == v.log.accepted
             && t.log.produced == v.log.produced && t.log.attempted == v.log.attempted
             && t.log.unsettled == (if ok then v.log.unsettled + {id} else v.log.unsettled)
             && (ok ==> t.log.gap == v.log.gap)
    ensures Written(s, t, id, data, taken,
                    s.pendingOps < MAX_PENDING_OPS && ReceiverOpen(s.rx.phase) && |s.channel| < CHANNEL_CAPACITY)
  {
    hide Tag;
    assert s.channel + [] == s.channel;
  }

  lemma NothingToSend(s: State)
    requires s.call == NoCall
    ensures Step(Step(s, AEnqueue), ASend) == s
  {
  }
}
