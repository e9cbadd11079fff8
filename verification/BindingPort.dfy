/** The JavaScript end of a connection. */
module Bindings {
  import opened Common
  import opened Protocol
  import opened Connections
  import ProtocolTheorems
  import ProtocolWrites
  import Vectors

  /** What an `onData` listener may do to the port that calls it. */
  datatype Deed = Restart(length: int) | Shut

  /** One call of the listener: its deeds in order, then a return or an exception. */
  datatype Reaction = Reaction(deeds: seq<Deed>, throws: bool)

  /** `write` and `writev` between two of their stretches: a request of theirs is pending, or its
    promise has been settled and they are about to go on. */
  datatype Progress = NotWriting | Waiting(id: nat) | Resumed | Rejected

  /** Why a write has failed: the port was being closed, too many requests were pending, the native side
    refused the payload, or the port was gone before the payload had been taken. */
  datatype Failure = NotOpen | Crowded | Unsubmitted | Aborted

  /** The payloads still to be submitted, all that writes have been asked to send, and the last failure. */
  datatype Writer = Writer(progress: Progress, unsent: seq<Bytes>, asked: Bytes, failed: Option<Failure>)

  /** Unless a write has failed, all that was asked for has been submitted or is still to be, and the
    request of every write that is not settled is awaited. */
  ghost predicate Tracks(w: Writer, gap: Option<nat>, unsettled: set<nat>, attempted: Bytes) {
    && (forall p :: p in w.unsent ==> 1 <= |p| <= CHUNK_SIZE)
    && (w.progress.Rejected? ==> w.failed.Some?)
    && (w.failed.None? ==>
          && gap.None? && unsettled <= (if w.progress.Waiting? then {w.progress.id} else {})
          && attempted + Flat(w.unsent) == w.asked && (w.progress.NotWriting? ==> w.unsent == []))
  }

  function Begun(w: Writer, payloads: seq<Bytes>): Writer {
    Writer(Resumed, payloads, w.asked + Flat(payloads), w.failed)
  }

  /** The write ends without error, or after one. */
  function Ended(w: Writer): Writer { w.(progress := NotWriting, unsent := []) }

  function Failed(w: Writer, cause: Failure): Writer {
    w.(progress := Rejected, unsent := [], failed := Some(cause))
  }

  /** An awaited request is pending, a write goes on only with a port that has been open, and nothing but
    a full table fails a write on a port that is sound. */
  ghost predicate Justified(w: Writer, isOpen: bool, closing: bool, finished: bool, pending: map<nat, bool>,
                            stop: bool, receiving: bool) {
    && (w.progress.Waiting? ==> w.progress.id in pending && pending[w.progress.id])
    && (!w.progress.NotWriting? ==> isOpen || closing)
    && (w.failed == Some(NotOpen) ==> closing)
    && (w.failed == Some(Unsubmitted) ==> stop || !receiving)
    && (w.failed == Some(Aborted) ==> finished)
  }

  lemma TracksBegun(w: Writer, payloads: seq<Bytes>, gap: Option<nat>, unsettled: set<nat>, attempted: Bytes)
    requires Tracks(w, gap, unsettled, attempted) && w.progress.NotWriting?
    requires forall p :: p in payloads ==> 1 <= |p| <= CHUNK_SIZE
    ensures Tracks(Begun(w, payloads), gap, unsettled, attempted)
  {
    assert Flat<byte>([]) == [];
    assert attempted + [] == attempted;
  }

  lemma TracksEnded(w: Writer, gap: Option<nat>, unsettled: set<nat>, attempted: Bytes)
    requires Tracks(w, gap, unsettled, attempted) && (w.progress.Rejected? || (w.progress.Resumed? && w.unsent == []))
    ensures Tracks(Ended(w), gap, unsettled, attempted)
  {
  }

  lemma TracksFailed(w: Writer, cause: Failure, gap: Option<nat>, unsettled: set<nat>, attempted: Bytes)
    ensures Tracks(Failed(w, cause), gap, unsettled, attempted)
  {
  }

  /** The next payload has been submitted, under `id` if it is queued. */
  lemma TracksNext(w: Writer, next: Progress, gap: Option<nat>, unsettled: set<nat>, attempted: Bytes)
    requires Tracks(w, gap, unsettled, attempted) && w.progress.Resumed? && w.unsent != []
    requires next.Resumed? || next.Waiting?
    ensures Tracks(w.(progress := next, unsent := w.unsent[1..]),
                   gap, if next.Waiting? then unsettled + {next.id} else unsettled, attempted + w.unsent[0])
  {
    assert forall p :: p in w.unsent[1..] ==> p in w.unsent;
    assert attempted + Flat(w.unsent) == (attempted + w.unsent[0]) + Flat(w.unsent[1..]);
  }

  /** What an event does to the awaited promise. */
  function Heard(w: Writer, event: Event, finished: bool): Writer {
    match event
    case Done(id) => if w.progress == Waiting(id) then w.(progress := Resumed) else w
    case Closed => if w.progress.Waiting? && !finished then Failed(w, Aborted) else w
    case _ => w
  }

  lemma TracksHeard(w: Writer, event: Event, finished: bool, gap: Option<nat>, unsettled: set<nat>, attempted: Bytes)
    requires Tracks(w, gap, unsettled, attempted)
    ensures Tracks(Heard(w, event, finished), gap, Remaining(unsettled, event), attempted)
  {
  }

  lemma JustifiedHeard(w: Writer, js: Binding, event: Event, stop: bool, receiving: bool)
    requires Justified(w, js.isOpen, js.closing, js.finished, js.pending, stop, receiving)
    requires (event.ReadDone? || event.ReadFailed?) && event.id in js.pending ==> !js.pending[event.id]
    ensures var next := Handled(js, event);
            Justified(Heard(w, event, js.finished), next.isOpen, next.closing, next.finished, next.pending, stop, receiving)
  {
    hide OnRead;
    match event
    case Opened =>
    case Closed =>
    case Done(id) => JustifiedSettle(w, js, id, stop, receiving);
    case ReadDone(id, _) => JustifiedSettle(w, js, id, stop, receiving);
    case ReadFailed(id) => JustifiedSettle(w, js, id, stop, receiving);
    case Data(item) => ReadKeepsRequests(js, item);
  }

  lemma ReadKeepsRequests(js: Binding, item: Item)
    ensures var next := OnRead(js, item);
            && next.pending == js.pending && next.isOpen == js.isOpen && next.closing == js.closing
            && next.finished == js.finished
  {
  }

  lemma JustifiedSettle(w: Writer, js: Binding, id: nat, stop: bool, receiving: bool)
    requires Justified(w, js.isOpen, js.closing, js.finished, js.pending, stop, receiving)
    ensures var next, v := Settle(js, id), if w.progress == Waiting(id) then w.(progress := Resumed) else w;
            && next.isOpen == js.isOpen && next.closing == js.closing && next.finished == js.finished
            && Justified(v, js.isOpen, js.closing, js.finished, next.pending, stop, receiving)
  {
  }

  /** No transfer is longer than its buffer. */
  ghost predicate Sane(device: nat -> Option<nat>) {
    forall n :: device(n).Some? ==> device(n).value <= n
  }

  class BindingPort {
    const native: NativePort
    var isOpen: bool
    var closing: bool
    var finished: bool
    var pending: map<nat, bool>
    var ordered: int
    var nextId: nat
    var reading: bool
    var streaming: bool
    var readBytes: int
    var readSlots: int
    var pendingRead: Option<Item>
    var queuedReads: seq<Item>
    var microtasks: nat
    var writer: Writer
    var received: seq<Bytes>     // what the application has been given
    ghost var delivery: Delivery
    ghost var call: Call

    ghost function Abs(): Binding
      reads this
    {
      Binding(isOpen, closing, finished, pending, ordered, reading, streaming, readBytes, readSlots,
              pendingRead, queuedReads, microtasks)
    }

    ghost predicate Shows(s: State)
      reads this
    {
      s.js == Abs() && s.delivery == delivery && s.call == call && s.log.received == received
    }

    ghost predicate Linked()
      reads this, native
    {
      native.Valid() && Shows(Run(native.history))
    }

    ghost predicate Valid()
      reads this, native
    {
      var log := Run(native.history).log;
      && Linked() && 1 <= nextId <= MAX_ID && Tracks(writer, log.gap, log.unsettled, log.attempted)
      && Justified(writer, isOpen, closing, finished, pending, native.stop, native.receiverOpen)
    }

    constructor (native: NativePort)
      requires native.Valid() && native.history == []
      ensures Valid() && this.native == native && call == NoCall && delivery == Idle
    {
      this.native := native;
      isOpen, closing, finished, pending, ordered, nextId := false, false, false, map[], 0, 1;
      reading, streaming, readBytes, readSlots := false, false, 0, 0;
      pendingRead, queuedReads, microtasks, received := None, [], 0, [];
      writer := Writer(NotWriting, [], [], None);
      delivery, call := Idle, NoCall;
    }

    /** `_id`: the next id that no pending request uses. */
    method NextId() returns (id: nat)
      requires 1 <= nextId <= MAX_ID && |pending| < MAX_ID
      modifies this`nextId
      ensures id !in pending && 1 <= id <= MAX_ID && 1 <= nextId <= MAX_ID
      ensures old(Linked()) ==> Linked()
    {
      hide Run, NativePort.Valid;
      ghost var start, steps, left := nextId, 0, pending.Keys;
      id := nextId;
      nextId := if id == MAX_ID then 1 else id + 1;
      while id in pending
        invariant 1 <= id <= MAX_ID && nextId == if id == MAX_ID then 1 else id + 1
        invariant |left| + steps == |pending.Keys|
        invariant id == start + steps || id == start + steps - MAX_ID
        invariant forall x :: x in pending && x !in left ==> start <= x < start + steps || x < start + steps - MAX_ID
        decreases |left|
      {
        left := left - {id};
        steps := steps + 1;
        id := nextId;
        nextId := if id == MAX_ID then 1 else id + 1;
      }
    }

    /** Everything a submission leaves alone. */
    twostate predicate OnlySubmits()
      reads this, native
    {
      && Valid() && call == NoCall && delivery == old(delivery) && received == old(received)
      && SameReactor(old(Run(native.history)), Run(native.history))
      && isOpen == old(isOpen) && closing == old(closing) && finished == old(finished)
      && pendingRead == old(pendingRead) && queuedReads == old(queuedReads) && microtasks == old(microtasks)
    }

    /** `startReading`. */
    method StartReading(length: int) returns (ok: bool)
      requires Valid() && call == NoCall
      modifies this, native
      ensures OnlySubmits()
      ensures var window := Max(1, Min(length, 65536));
              var grant := old((2 * readBytes <= window || 2 * readSlots <= 32) && readBytes < window && readSlots < 32);
              && (ok <==> old(isOpen && !closing && !reading) && (grant ==> !native.stop && native.receiverOpen))
              && (if ok && grant then
                    && readBytes == window && readSlots == 32
                    && native.channel == old(native.channel) + [Credit(window - old(readBytes), 32 - old(readSlots))]
                  else readBytes == old(readBytes) && readSlots == old(readSlots) && native.channel == old(native.channel))
              && native.history == old(native.history)
                                   + (if old(isOpen && !closing && !reading) then [AStartReading(length)] else [])
                                   + (if old(isOpen && !closing && !reading) && grant then [AEnqueue] + [ASend] else [])
      ensures streaming == (old(streaming) || old(isOpen && !closing && !reading)) && pending == old(pending)
      ensures reading == old(reading) && writer == old(writer)
    {
      hide Run, Tracks, Justified, Linked, BindingPort.Valid, NativePort.Valid, Wanted;
      assert native.history + [] + [] == native.history;
      if !isOpen || closing { return false; }
      if reading { return false; }
      BeginStreaming(length);
      ok := GrantMissing(length);
    }

    /** The credit is brought back to a full window, if it has fallen to half of one. */
    method GrantMissing(length: int) returns (ok: bool)
      requires Valid() && isOpen
      requires var wanted := Wanted(Abs(), length); call == if wanted.Some? then Enqueuing(wanted.value) else NoCall
      modifies this`call, this`readBytes, this`readSlots, native`channel, native`pendingOps, native`history
      ensures Valid() && call == NoCall && SameReactor(old(Run(native.history)), Run(native.history))
      ensures var window := Max(1, Min(length, 65536));
              var grant := old((2 * readBytes <= window || 2 * readSlots <= 32) && readBytes < window && readSlots < 32);
              && (ok <==> (grant ==> !native.stop && native.receiverOpen))
              && (if ok && grant then
                    && readBytes == window && readSlots == 32
                    && native.channel == old(native.channel) + [Credit(window - old(readBytes), 32 - old(readSlots))]
                  else readBytes == old(readBytes) && readSlots == old(readSlots) && native.channel == old(native.channel))
              && native.history == old(native.history) + (if grant then [AEnqueue] + [ASend] else [])
    {
      hide Run, Tracks, Justified, Linked, NativePort.Valid;
      assert native.history + [] == native.history;
      AccountIsSound();
      var window := Max(1, Min(length, CHUNK_SIZE));
      if 2 * readBytes <= window || 2 * readSlots <= READ_SLOTS {
        var bytes := window - readBytes;
        var slots := READ_SLOTS - readSlots;
        if bytes > 0 && slots > 0 {
          ok := Grant(bytes, slots);
          return;
        }
      }
      return true;
    }

    lemma AccountIsSound()
      requires Valid() && isOpen
      ensures readBytes >= 0 && readSlots >= 0
    {
      hide Run, Tracks, Justified, NativePort.Valid, ProtocolTheorems.Covered;
      ProtocolTheorems.AccountIsCovered(native.history);
    }

    method BeginStreaming(length: int)
      requires Valid() && call == NoCall && isOpen && !closing && !reading
      modifies this`streaming, this`call, native`history
      ensures Valid() && streaming && SameReactor(old(Run(native.history)), Run(native.history))
      ensures native.history == old(native.history) + [AStartReading(length)]
      ensures var wanted := Wanted(Abs(), length); call == if wanted.Some? then Enqueuing(wanted.value) else NoCall
    {
      hide Run, Step, Tracks, Justified, NativePort.Valid;
      StartStep(Run(native.history), length);
      native.Record(AStartReading(length));
      streaming := true;
      call := Run(native.history).call;
    }

    method Grant(bytes: int, slots: int) returns (ok: bool)
      requires Valid() && 1 <= bytes <= CHUNK_SIZE && 1 <= slots <= READ_SLOTS
      requires call == Enqueuing(Credit(bytes, slots))
      modifies this`call, this`readBytes, this`readSlots, native`channel, native`pendingOps, native`history
      ensures Valid() && call == NoCall && SameReactor(old(Run(native.history)), Run(native.history))
      ensures ok == (!native.stop && native.receiverOpen)
      ensures native.history == old(native.history) + ([AEnqueue] + [ASend])
      ensures if ok then readBytes == old(readBytes) + bytes && readSlots == old(readSlots) + slots
                         && native.channel == old(native.channel) + [Credit(bytes, slots)]
              else readBytes == old(readBytes) && readSlots == old(readSlots) && native.channel == old(native.channel)
    {
      hide Run, Step, Tracks, Justified, NativePort.Valid;
      assert native.history + [AEnqueue] + [ASend] == native.history + ([AEnqueue] + [ASend]);
      ok := native.ReadCredit(bytes, slots);
      call := NoCall;
      if !ok { return; }
      readBytes := readBytes + bytes;
      readSlots := readSlots + slots;
    }

    /** `close` up to its first await. */
    method Close() returns (ok: bool)
      requires Valid() && call == NoCall
      modifies this, native
      ensures Valid() && call == NoCall && delivery == old(delivery) && received == old(received)
      ensures SameReactor(old(Run(native.history)), Run(native.history))
      ensures ok == old(isOpen && !closing)
      ensures native.history == old(native.history) + (if ok then [AClose] else [])
      ensures ok ==> native.stop && Abs() == old(Abs()).(isOpen := false, closing := true)
      ensures !ok ==> Abs() == old(Abs())
    {
      hide Run, Step, Tracks;
      if !isOpen || closing { return false; }
      CloseStep(Run(native.history));
      RunSnoc(native.history, AClose);
      native.history := native.history + [AClose];
      closing := true;
      isOpen := false;
      native.stop := true;
      return true;
    }

    /** `cancelOpen`. */
    method CancelOpen()
      requires Valid() && call == NoCall
      modifies this, native
      ensures Valid() && native.stop && Abs() == old(Abs()).(closing := true)
      ensures call == NoCall && delivery == old(delivery) && received == old(received)
      ensures native.history == old(native.history) + [ACancelOpen]
      ensures SameReactor(old(Run(native.history)), Run(native.history))
    {
      hide Run, Step, Tracks;
      CancelStep(Run(native.history));
      RunSnoc(native.history, ACancelOpen);
      native.history := native.history + [ACancelOpen];
      closing := true;
      native.stop := true;
    }

    /** The end of `_request`: `enqueue`, then a pending record or the undone reservation. */
    method Queue(c: Command) returns (ok: bool)
      requires Valid() && call == Enqueuing(c) && (c.Control? || c.Read?)
      requires c.id !in pending
      modifies this`call, this`pending, this`ordered, this`reading, native`channel, native`pendingOps, native`history
      ensures Valid() && call == NoCall && SameReactor(old(Run(native.history)), Run(native.history))
      ensures Abs() == AfterSubmit(old(Abs()), c, ok) && ok == (!native.stop && native.receiverOpen)
      ensures native.channel == old(native.channel) + (if ok then [c] else [])
      ensures native.history == old(native.history) + [AEnqueue] + [ASend]
    {
      hide Run, AfterSubmit, Tracks, NativePort.Valid;
      ok := native.Enqueue(c);
      EndCall(c, ok);
    }

    method EndCall(c: Command, ok: bool)
      requires c.Control? || c.Read?
      modifies this`call, this`pending, this`ordered, this`reading
      ensures Abs() == AfterSubmit(old(Abs()), c, ok) && call == NoCall
      ensures pending == if ok then old(pending)[c.id := c.Ordered()] else old(pending)
    {
      call := NoCall;
      if ok {
        pending := pending[c.id := c.Ordered()];
      } else if c.Ordered() {
        ordered := ordered - 1;
      } else {
        reading := false;
      }
    }

    /** `_request` for an ordered control operation; `Some(id)` when it is queued. */
    method Request() returns (queued: Option<nat>)
      requires Valid() && call == NoCall
      modifies this, native
      ensures OnlySubmits()
      ensures queued.Some? <==> old(isOpen && !closing && |pending| < 64) && !native.stop && native.receiverOpen
      ensures queued.Some? ==> queued.value !in old(pending) && pending == old(pending)[queued.value := true]
                               && ordered == old(ordered) + 1
                               && native.channel == old(native.channel) + [Control(queued.value)]
      ensures queued.None? ==> pending == old(pending) && ordered == old(ordered) && native.channel == old(native.channel)
      ensures if old(isOpen && !closing && |pending| < 64)
              then exists id :: native.history == old(native.history) + [AControl(id)] + [AEnqueue] + [ASend]
              else native.history == old(native.history)
      ensures writer == old(writer) && reading == old(reading)
    {
      hide Run, Step, Tracks, Justified, NativePort.Valid;
      if !isOpen || closing { return None; }
      if |pending| >= MAX_PENDING_OPS { return None; }
      var id := NextId();
      BeginControl(id);
      var ok := Queue(Control(id));
      return if ok then Some(id) else None;
    }

    /** The reservation of an ordered operation. */
    method BeginControl(id: nat)
      requires Valid() && call == NoCall && CanSubmit(Abs()) && id !in pending
      modifies this`ordered, this`call, native`history
      ensures Valid() && call == Enqueuing(Control(id)) && ordered == old(ordered) + 1
      ensures native.history == old(native.history) + [AControl(id)]
      ensures SameReactor(old(Run(native.history)), Run(native.history))
    {
      hide Run, Step, Tracks, Justified, NativePort.Valid;
      ControlStep(Run(native.history), id);
      native.Record(AControl(id));
      ordered := ordered + 1;
      call := Enqueuing(Control(id));
    }

    /** `readChunk` up to its await. */
    method ReadChunk(length: nat) returns (queued: Option<nat>)
      requires Valid() && call == NoCall
      modifies this, native
      ensures OnlySubmits()
      ensures var begins := length >= 1 && old(!reading && !streaming && isOpen && !closing && |pending| < 64);
              && (queued.Some? <==> begins && !native.stop && native.receiverOpen)
              && if begins
                 then exists id :: native.history == old(native.history) + [ARead(id, length)] + [AEnqueue] + [ASend]
                 else native.history == old(native.history)
      ensures queued.Some? ==> queued.value !in old(pending) && pending == old(pending)[queued.value := false] && reading
      ensures queued.Some? ==>
                native.channel == old(native.channel) + [Command.Read(queued.value, Min(length, CHUNK_SIZE))]
      ensures queued.None? ==> pending == old(pending) && reading == old(reading) && native.channel == old(native.channel)
      ensures writer == old(writer) && ordered == old(ordered)
    {
      hide Run, Step, Tracks, Justified, NativePort.Valid;
      if length < 1 || reading || streaming { return None; }
      if !isOpen || closing || |pending| >= MAX_PENDING_OPS { return None; }
      var id := NextId();
      BeginRead(id, length);
      var ok := Queue(Command.Read(id, Min(length, CHUNK_SIZE)));
      return if ok then Some(id) else None;
    }

    method BeginRead(id: nat, length: nat)
      requires Valid() && call == NoCall && CanSubmit(Abs()) && id !in pending
      requires length >= 1 && !reading && !streaming
      modifies this`reading, this`call, native`history
      ensures Valid() && call == Enqueuing(Command.Read(id, Min(length, CHUNK_SIZE))) && reading
      ensures native.history == old(native.history) + [ARead(id, length)]
      ensures SameReactor(old(Run(native.history)), Run(native.history))
    {
      hide Run, Step, Tracks, Justified, NativePort.Valid;
      ReadStep(Run(native.history), id, length);
      native.Record(ARead(id, length));
      reading := true;
      call := Enqueuing(Command.Read(id, Min(length, CHUNK_SIZE)));
    }

    // ---- Writing ---------------------------------------------------------------------------------------

    /** A write that begins now may submit. */
    predicate MayBegin()
      reads this
    {
      isOpen && !closing && writer.progress.NotWriting?
    }

    /** The device takes the whole payload at once: no ordered operation is pending on either side, the
      lock is free, and the device has room. */
    predicate TakenWhole(payload: Bytes, device: nat -> Option<nat>)
      reads this, native
    {
      ordered == 0 && native.pendingOps == 0 && native.session.Free? && device(|payload|) == Some(|payload|)
    }

    /** The native side accepts the payload: it has not been stopped, and it takes all of it at once or has
      a receiver for the rest. */
    predicate Submits(payload: Bytes, device: nat -> Option<nat>)
      reads this, native
    {
      && isOpen && !closing && |pending| < 64
      && !native.stop && (native.receiverOpen || TakenWhole(payload, device))
    }

    /** What becomes of a write that goes on with `payloads`: the first one is submitted, whole, exactly
      when it can be; otherwise the write fails. */
    twostate predicate Advanced(payloads: seq<Bytes>, device: nat -> Option<nat>)
      reads this, native
    {
      if payloads == [] then
        native.history == old(native.history) && writer.progress == Resumed && writer.unsent == []
        && writer.failed == old(writer).failed
      else if old(Submits(payloads[0], device)) then
        && native.submitted == old(native.submitted) + payloads[0]
        && writer.unsent == payloads[1..] && writer.failed == old(writer).failed
        && (if old(TakenWhole(payloads[0], device)) then writer.progress.Resumed? && pending == old(pending)
            else writer.progress.Waiting? && pending == old(pending)[writer.progress.id := true])
      else
        && writer.progress.Rejected? && writer.unsent == [] && pending == old(pending)
        && writer.failed == Some(if old(!isOpen || closing) then NotOpen
                                 else if old(|pending|) >= 64 then Crowded else Unsubmitted)
    }

    /** `write` up to its first await; `device` answers an inline attempt at a payload of any length. */
    method Write(buffer: Bytes, device: nat -> Option<nat>) returns (ok: bool, ghost payloads: seq<Bytes>)
      requires Valid() && call == NoCall && Sane(device)
      modifies this, native
      ensures OnlySubmits()
      ensures Flat(payloads) == buffer && forall p :: p in payloads ==> 1 <= |p| <= 65536
      ensures !old(MayBegin()) ==> !ok && writer == old(writer) && native.history == old(native.history)
      ensures old(MayBegin()) && |buffer| > 65536 ==>
                && ok && Vectors.Packed(payloads, [buffer])
                && Advanced(payloads, device) && writer.asked == old(writer).asked + buffer
      ensures old(MayBegin()) && |buffer| <= 65536 ==>
                && (ok <==> buffer == [] || old(Submits(buffer, device)))
                && payloads == (if buffer == [] then [] else [buffer])
                && (ok ==> Advanced(payloads, device) && writer.asked == old(writer).asked + buffer)
                && (!ok ==> writer.progress.NotWriting? && pending == old(pending))
                && (!ok && old(|pending|) < 64 ==> writer.failed.Some? && writer.failed != Some(Crowded))
                && (!ok && old(|pending|) >= 64 ==> writer == old(writer) && native.history == old(native.history))
    {
      hide Run, Flat, Tracks, Linked, Justified, NativePort.Valid;
      FlatOne(buffer);
      NoPayload();
      if |buffer| > CHUNK_SIZE {
        ok, payloads := WriteMany([buffer], device);
        return;
      }
      payloads := if |buffer| == 0 then [] else [buffer];
      if !isOpen || closing { return false, payloads; }
      if writer.progress != NotWriting { return false, payloads; }
      if |buffer| > 0 && |pending| >= MAX_PENDING_OPS { return false, payloads; }
      Start(if |buffer| == 0 then [] else [buffer], device);
      if !writer.progress.Rejected? { return true, payloads; }
      End();
      return false, payloads;
    }

    /** `writev` up to its first await. */
    method WriteMany(buffers: seq<Bytes>, device: nat -> Option<nat>) returns (ok: bool, ghost payloads: seq<Bytes>)
      requires Valid() && call == NoCall && Sane(device)
      modifies this, native
      ensures OnlySubmits()
      ensures Vectors.Packed(payloads, buffers)
      ensures ok <==> old(MayBegin())
      ensures ok ==> Advanced(payloads, device) && writer.asked == old(writer).asked + Flat(buffers)
      ensures !ok ==> writer == old(writer) && native.history == old(native.history)
    {
      hide Run, Flat, Tracks, Linked, Justified, NativePort.Valid, Vectors.Cut;
      var all := Vectors.Transmit(buffers);
      payloads := all;
      if !isOpen || closing { return false, payloads; }
      if writer.progress != NotWriting { return false, payloads; }
      Start(all, device);
      return true, payloads;
    }

    /** The awaited promise has been settled: the write ends, or submits its next payload. */
    method ContinueWrite(device: nat -> Option<nat>)
      requires Valid() && call == NoCall && Sane(device)
      modifies this, native
      ensures OnlySubmits() && writer.asked == old(writer).asked
      ensures var w := old(writer);
              if w.progress.Rejected? || (w.progress.Resumed? && w.unsent == [])
              then writer == w.(progress := NotWriting, unsent := []) && native.history == old(native.history)
              else if w.progress.Resumed? then Advanced(w.unsent, device)
              else writer == w && native.history == old(native.history)
    {
      hide Run, Tracks, Linked, Justified, NativePort.Valid;
      if writer.progress.Rejected? || (writer.progress.Resumed? && writer.unsent == []) {
        End();
      } else if writer.progress.Resumed? {
        Advance(device);
      }
    }

    /** A write begins with its first payload. */
    method Start(payloads: seq<Bytes>, device: nat -> Option<nat>)
      requires Valid() && call == NoCall && MayBegin() && Sane(device)
      requires forall p :: p in payloads ==> 1 <= |p| <= CHUNK_SIZE
      modifies this, native
      ensures OnlySubmits() && writer.asked == old(writer).asked + Flat(payloads) && Advanced(payloads, device)
    {
      hide Run, Flat, Tracks, NativePort.Valid;
      ghost var log := Run(native.history).log;
      TracksBegun(writer, payloads, log.gap, log.unsettled, log.attempted);
      writer := Begun(writer, payloads);
      Advance(device);
    }

    /** The promise of the whole write is settled. */
    method End()
      requires Valid() && (writer.progress.Rejected? || (writer.progress.Resumed? && writer.unsent == []))
      modifies this`writer
      ensures Valid() && writer == old(writer).(progress := NotWriting, unsent := [])
    {
      hide Run, Tracks, NativePort.Valid;
      ghost var log := Run(native.history).log;
      TracksEnded(writer, log.gap, log.unsettled, log.attempted);
      writer := Ended(writer);
    }

    /** Submit the next payload, if there is one. */
    method Advance(device: nat -> Option<nat>)
      requires Valid() && call == NoCall && writer.progress.Resumed? && Sane(device)
      modifies this`nextId, this`pending, this`ordered, this`writer, native
      ensures Valid() && SameReactor(old(Run(native.history)), Run(native.history))
      ensures writer.asked == old(writer).asked && Advanced(old(writer).unsent, device)
    {
      hide Run, Tracks, Linked, NativePort.Valid;
      if writer.unsent == [] { return; }
      if !isOpen || closing {
        FailWrite(NotOpen);
      } else if |pending| >= MAX_PENDING_OPS {
        FailWrite(Crowded);
      } else {
        SubmitPayload(device);
      }
    }

    method SubmitPayload(device: nat -> Option<nat>)
      requires Valid() && call == NoCall && CanSubmit(Abs()) && Sane(device)
      requires writer.progress.Resumed? && writer.unsent != []
      modifies this`nextId, this`pending, this`ordered, this`writer, native
      ensures Valid() && SameReactor(old(Run(native.history)), Run(native.history))
      ensures writer.asked == old(writer).asked && Advanced(old(writer).unsent, device)
    {
      hide Run, Tracks, Linked, NativePort.Valid;
      ghost var log := Run(native.history).log;
      PayloadFits(writer, log.gap, log.unsettled, log.attempted);
      var id := NextId();
      var r := SubmitWrite(id, writer.unsent[0], device(|writer.unsent[0]|));
      if r.Refused? {
        FailWrite(Unsubmitted);
      } else {
        NextPayload(if r.Queued? then Waiting(id) else Resumed, log);
      }
    }

    /** A payload could not be submitted. */
    method FailWrite(cause: Failure)
      requires Linked() && 1 <= nextId <= MAX_ID && !cause.Aborted? && (isOpen || closing)
      requires (cause.NotOpen? ==> closing) && (cause.Unsubmitted? ==> native.stop || !native.receiverOpen)
      modifies this`writer
      ensures Valid() && writer == Failed(old(writer), cause)
    {
      hide Run, Tracks, NativePort.Valid;
      ghost var log := Run(native.history).log;
      TracksFailed(writer, cause, log.gap, log.unsettled, log.attempted);
      writer := Failed(writer, cause);
    }

    /** The first payload has been submitted. */
    method NextPayload(next: Progress, ghost log: Log)
      requires Linked() && 1 <= nextId <= MAX_ID && Tracks(writer, log.gap, log.unsettled, log.attempted)
      requires Justified(writer, isOpen, closing, finished, pending, native.stop, native.receiverOpen)
      requires writer.progress.Resumed? && writer.unsent != [] && (next.Resumed? || next.Waiting?)
      requires next.Waiting? ==> next.id in pending && pending[next.id]
      requires var after := Run(native.history).log;
               && after.gap == log.gap && after.attempted == log.attempted + writer.unsent[0]
               && after.unsettled == if next.Waiting? then log.unsettled + {next.id} else log.unsettled
      modifies this`writer
      ensures Valid() && writer == old(writer).(progress := next, unsent := old(writer).unsent[1..])
    {
      hide Run, Tracks, NativePort.Valid;
      TracksNext(writer, next, log.gap, log.unsettled, log.attempted);
      writer := writer.(progress := next, unsent := writer.unsent[1..]);
    }

    /** One native write, with the reservation and the pending record around it. */
    method SubmitWrite(id: nat, payload: Bytes, device: Option<nat>) returns (r: WriteResult)
      requires Linked() && call == NoCall && CanSubmit(Abs()) && id !in pending && |payload| <= CHUNK_SIZE
      requires device.Some? ==> device.value <= |payload|
      modifies this`pending, this`ordered
      modifies native`submitted, native`accepted, native`channel, native`pendingOps, native`history
      ensures Linked() && SameReactor(old(Run(native.history)), Run(native.history))
      ensures if r.Queued? then ordered == old(ordered) + 1 && pending == old(pending)[id := true]
              else ordered == old(ordered) && pending == old(pending)
      ensures var whole := old(ordered == 0 && native.pendingOps == 0) && native.session.Free? && device == Some(|payload|);
              && (r.Refused? <==> native.stop || (!native.receiverOpen && !whole))
              && (r.Inline? <==> !native.stop && whole)
      ensures native.submitted == if native.stop then old(native.submitted) else old(native.submitted) + payload
      ensures var log, was := Run(native.history).log, old(Run(native.history)).log;
              && log.unsettled == (if r.Queued? then was.unsettled + {id} else was.unsettled)
              && (!r.Refused? ==> log.gap == was.gap && log.attempted == was.attempted + payload)
    {
      hide Run, NativePort.Valid;
      ordered := ordered + 1;
      var taken;
      r, taken := native.WriteThrough(id, payload, ordered == 1, device);
      if r.Queued? {
        pending := pending[id := true];
      } else {
        ordered := ordered - 1;
      }
    }

    /** The `finally` of `readChunk`, once its request has been settled. */
    method ReadSettled()
      requires Valid() && call == NoCall && reading && forall id :: id in pending ==> pending[id]
      modifies this, native
      ensures Valid() && Abs() == old(Abs()).(reading := false)
      ensures call == NoCall && delivery == old(delivery) && received == old(received)
      ensures SameReactor(old(Run(native.history)), Run(native.history))
    {
      hide Run, Step, Tracks, Justified, NativePort.Valid;
      SettledStep(Run(native.history));
      native.Record(AReadSettled);
      reading := false;
    }

    // ---- Native callbacks ----------------------------------------------------------------------------

    /** The native callback for the oldest event. */
    method OnCallback()
      requires Valid() && call == NoCall && delivery == Idle && native.callbacks != []
      modifies this, native
      ensures Valid() && call == NoCall && delivery == Idle
      ensures SameReactor(old(Run(native.history)), Run(native.history))
      ensures native.callbacks == old(native.callbacks)[1..] && native.history == old(native.history) + [ACallback]
      ensures Abs() == Handled(old(Abs()), old(native.callbacks)[0])
      ensures received == old(received) + Given(old(native.callbacks)[0])
    {
      hide Run, JsCallback, Tracks, Justified, Handled;
      var event := native.callbacks[0];
      ghost var log := Run(native.history).log;
      CallbackStep(Run(native.history));
      TracksHeard(writer, event, finished, log.gap, log.unsettled, log.attempted);
      ProtocolWrites.ReadEventsAreReads(native.history);
      JustifiedHeard(writer, Abs(), event, native.stop, native.receiverOpen);
      RunSnoc(native.history, ACallback);
      native.history := native.history + [ACallback];
      native.callbacks := native.callbacks[1..];
      OnEvent(event);
    }

    /** The native callback keeps what has been read. */
    method StoreRead(item: Item)
      modifies this`pendingRead, this`queuedReads, this`microtasks
      ensures Abs() == OnRead(old(Abs()), item)
    {
      if pendingRead.None? { pendingRead := Some(item); } else { queuedReads := queuedReads + [item]; }
      microtasks := microtasks + 1;
    }

    method OnEvent(event: Event)
      modifies this
      ensures Abs() == Handled(old(Abs()), event) && received == old(received) + Given(event)
      ensures writer == Heard(old(writer), event, old(finished))
      ensures delivery == old(delivery) && call == old(call) && nextId == old(nextId)
    {
      hide Run, OnRead, Protocol.Settle, Finish, Failed;
      assert received + [] == received;
      match event
      case Data(item) =>
        StoreRead(item);
      case Opened =>
        if !closing { isOpen := true; }
      case Closed =>
        FinishClose();
      case Done(id) =>
        if writer.progress == Waiting(id) { writer := writer.(progress := Resumed); }    // its promise is resolved
        Settle(id);
      case ReadDone(id, data) =>
        Settle(id);
        received := received + [data];
      case ReadFailed(id) =>
        Settle(id);
    }

    /** `_settle`. */
    method Settle(id: nat)
      modifies this`pending, this`ordered
      ensures Abs() == Protocol.Settle(old(Abs()), id)
    {
      if id !in pending { return; }
      var isOrdered := pending[id];
      pending := pending - {id};
      if isOrdered { ordered := ordered - 1; }
    }

    /** `_finishClose`. */
    method FinishClose()
      modifies this`finished, this`pending, this`ordered, this`writer
      ensures Abs() == Finish(old(Abs())) && writer == Heard(old(writer), Closed, old(finished))
    {
      if finished { return; }
      if writer.progress.Waiting? { writer := Failed(writer, Aborted); }    // its promise is rejected
      finished := true;
      pending := map[];
      ordered := 0;
    }

    // ---- Delivering reads ------------------------------------------------------------------------------

    /** The next step `a` hands over `events[index]` if there is one and the port is open. */
    ghost predicate AboutTo(a: Action, events: seq<Bytes>, index: nat)
      reads this, native
    {
      var s := Run(native.history);
      && native.Valid() && 1 <= nextId <= MAX_ID
      && call == s.call == NoCall && received == s.log.received && Tracks(writer, s.log.gap, s.log.unsettled, s.log.attempted)
      && Justified(writer, isOpen, closing, finished, pending, native.stop, native.receiverOpen)
      && Step(s, a) == Deliver(s.(js := Abs()), events, index)
    }

    /** Account for one chunk and enter the listener. */
    method Hand(events: seq<Bytes>, index: nat, ghost a: Action)
      requires AboutTo(a, events, index) && index < |events| && isOpen
      modifies this`readBytes, this`readSlots, this`received, this`delivery, native`history
      ensures Valid() && delivery == Listening(events, index + 1)
      ensures received == old(received) + [events[index]]
      ensures SameReactor(old(Run(native.history)), Run(native.history))
    {
      hide Run, Step, Tracks, Justified, NativePort.Valid;
      native.Record(a);
      readBytes := readBytes - |events[index]|;
      readSlots := readSlots - 1;
      received := received + [events[index]];
      delivery := Listening(events, index + 1);
    }

    /** Leave the delivery loop. */
    ghost method Leave(events: seq<Bytes>, index: nat, a: Action)
      requires AboutTo(a, events, index) && (index >= |events| || !isOpen)
      modifies this`delivery, native`history
      ensures Valid() && delivery == Idle
      ensures SameReactor(old(Run(native.history)), Run(native.history))
    {
      hide Run, Step, Tracks, Justified, NativePort.Valid;
      native.Record(a);
      delivery := Idle;
    }

    /** What the listener does: it may grant more credit or close the port. */
    method React(deeds: seq<Deed>)
      requires Valid() && call == NoCall
      modifies this, native
      ensures Valid() && call == NoCall && delivery == old(delivery) && received == old(received)
      ensures SameReactor(old(Run(native.history)), Run(native.history))
      ensures isOpen ==> old(isOpen)
      ensures pendingRead == old(pendingRead) && queuedReads == old(queuedReads) && microtasks == old(microtasks)
    {
      hide Run, Step, Tracks, Justified, NativePort.Valid;
      for i := 0 to |deeds|
        invariant Valid() && call == NoCall && delivery == old(delivery) && received == old(received)
        invariant SameReactor(old(Run(native.history)), Run(native.history))
        invariant isOpen ==> old(isOpen)
        invariant pendingRead == old(pendingRead) && queuedReads == old(queuedReads) && microtasks == old(microtasks)
      {
        match deeds[i]
        case Restart(length) => var _ := StartReading(length);
        case Shut => var _ := Close();
      }
    }

    /** `retainRead`: the rest goes back to the head of the FIFO with a microtask of its own. */
    method RetainRead(events: seq<Bytes>, index: nat)
      requires index < |events|
      modifies this`pendingRead, this`queuedReads, this`microtasks
      ensures Abs() == Retain(old(Abs()), events[index..])
    {
      if pendingRead.Some? { queuedReads := [pendingRead.value] + queuedReads; }
      pendingRead := Some(Batch(events[index..]));
      microtasks := microtasks + 1;
    }

    /** One pass of the delivery loop: the listener runs and returns or throws. */
    method HandNext(events: seq<Bytes>, index: nat, reaction: Reaction, ghost a: Action)
      requires AboutTo(a, events, index) && index < |events| && isOpen
      modifies this, native
      ensures if reaction.throws then Valid() && delivery == Listening(events, index + 1)
              else AboutTo(AListenerReturns, events, index + 1)
      ensures call == NoCall && received == old(received) + [events[index]]
      ensures SameReactor(old(Run(native.history)), Run(native.history))
      ensures pendingRead == old(pendingRead) && queuedReads == old(queuedReads) && microtasks == old(microtasks)
    {
      hide Run, Step, Tracks, Justified, NativePort.Valid;
      Hand(events, index, a);
      React(reaction.deeds);
      if !reaction.throws { ReturnStep(Run(native.history), events, index + 1); }
    }

    /** The `finally` block: after an exception the rest goes ahead of every later read. */
    method EndDelivery(events: seq<Bytes>, index: nat, threw: bool, ghost a: Action)
      requires index <= |events| && call == NoCall
      requires if threw then Valid() && delivery == Listening(events, index)
               else AboutTo(a, events, index) && (index == |events| || !isOpen)
      modifies this`pendingRead, this`queuedReads, this`microtasks, this`delivery, native`history
      ensures Valid() && delivery == Idle
      ensures SameReactor(old(Run(native.history)), Run(native.history))
      ensures Abs() == if index < |events| && isOpen then Retain(old(Abs()), events[index..]) else old(Abs())
    {
      hide Run, Step, Tracks, Justified, NativePort.Valid;
      if threw { ThrowStep(Run(native.history), events, index); }
      if index < |events| && isOpen { RetainRead(events, index); }
      if threw {
        native.Record(AListenerThrows);
        delivery := Idle;
      } else {
        Leave(events, index, a);
      }
    }

    /** `_deliverBatch`; `reactions` says what the listener does in each call.  `count` chunks are
      handed over; only an exception or a close ends the loop early. */
    method DeliverBatch(events: seq<Bytes>, reactions: seq<Reaction>, ghost first: Action)
      returns (count: nat, threw: bool)
      requires AboutTo(first, events, 0)
      modifies this, native
      ensures Delivered(events, count, threw)
    {
      hide Run, Step, Tracks, Justified, NativePort.Valid, Deliver;
      ghost var a := first;
      threw := false;
      count := 0;
      while count < |events| && isOpen
        invariant count <= |events| && (if threw then Valid() && delivery == Listening(events, count)
                                        else AboutTo(a, events, count))
        invariant call == NoCall && received == old(received) + events[..count]
        invariant SameReactor(old(Run(native.history)), Run(native.history))
        invariant pendingRead == old(pendingRead) && queuedReads == old(queuedReads) && microtasks == old(microtasks)
      {
        var reaction := if count < |reactions| then reactions[count] else Reaction([], false);
        HandNext(events, count, reaction, a);
        assert events[..count + 1] == events[..count] + [events[count]];
        count := count + 1;
        a := AListenerReturns;
        if reaction.throws {
          threw := true;
          break;
        }
      }
      EndDelivery(events, count, threw, a);
    }

    /** `count` of `events` have been handed over; the rest is dropped by a close or retained. */
    twostate predicate Delivered(events: seq<Bytes>, count: nat, threw: bool)
      reads this, native
    {
      && Valid() && call == NoCall && delivery == Idle && count <= |events|
      && SameReactor(old(Run(native.history)), Run(native.history))
      && received == old(received) + events[..count]
      && (!threw && isOpen ==> count == |events|)
      && (isOpen ==> Fifo(Abs()) == (if count < |events| then [Batch(events[count..])] else []) + old(Fifo(Abs())))
      && microtasks - old(microtasks) == |Fifo(Abs())| - |old(Fifo(Abs()))|
    }

    /** The other branch of `deliverRead`: one chunk leaves nothing to retain. */
    method DeliverSingle(data: Bytes, reaction: Reaction) returns (count: nat, threw: bool)
      requires AboutTo(AMicrotask, [data], 0)
      modifies this, native
      ensures Delivered([data], count, threw)
    {
      hide Run, Step, Tracks, Justified, NativePort.Valid, Deliver;
      count, threw := 0, false;
      if isOpen {
        threw := reaction.throws;
        HandNext([data], 0, reaction, AMicrotask);
        count := 1;
      }
      EndDelivery([data], count, threw, if count == 0 then AMicrotask else AListenerReturns);
    }

    /** `pendingRead = queuedReads?.shift()`. */
    method ShiftRead()
      requires microtasks > 0
      modifies this`pendingRead, this`queuedReads, this`microtasks
      ensures Abs() == TakeRead(old(Abs()))
    {
      if queuedReads == [] {
        pendingRead := None;
      } else {
        pendingRead := Some(queuedReads[0]);
        queuedReads := queuedReads[1..];
      }
      microtasks := microtasks - 1;
    }

    /** The microtask `deliverRead`. */
    method DeliverRead(reactions: seq<Reaction>) returns (count: nat, threw: bool)
      requires Valid() && call == NoCall && delivery == Idle && microtasks > 0
      modifies this, native
      ensures Valid() && call == NoCall && delivery == Idle
      ensures SameReactor(old(Run(native.history)), Run(native.history))
      ensures old(pendingRead.Some?) && count <= |Chunks(old(pendingRead.value))|
      ensures received == old(received) + Chunks(old(pendingRead.value))[..count]
      ensures !threw && isOpen ==> count == |Chunks(old(pendingRead.value))|
      ensures isOpen ==> var chunks := Chunks(old(pendingRead.value));
                         Fifo(Abs()) == (if count < |chunks| then [Batch(chunks[count..])] else []) + old(queuedReads)
      ensures microtasks == |Fifo(Abs())|
    {
      hide Run, Step, Tracks, Justified, NativePort.Valid, Deliver;
      ProtocolTheorems.NothingIsStranded(native.history);
      MicrotaskStep(Run(native.history));
      var event := pendingRead;
      ghost var queued := queuedReads;
      ShiftRead();
      assert Fifo(Abs()) == queued;
      match event.value
      case Single(data) =>
        var reaction := if reactions == [] then Reaction([], false) else reactions[0];
        count, threw := DeliverSingle(data, reaction);
      case Batch(events) =>
        count, threw := DeliverBatch(events, reactions, AMicrotask);
    }
  }

  lemma StartStep(s: State, length: int)
    requires s.call == NoCall && s.js.isOpen && !s.js.closing && !s.js.reading
    ensures var t, wanted := Step(s, AStartReading(length)), Wanted(s.js, length);
            && t.js == s.js.(streaming := true)
            && t.call == (if wanted.Some? then Enqueuing(wanted.value) else NoCall)
            && t == s.(js := t.js, call := t.call)
  {
  }

  lemma CloseStep(s: State)
    requires s.call == NoCall && s.js.isOpen && !s.js.closing
    ensures Step(s, AClose) == s.(js := s.js.(closing := true, isOpen := false), stop := true)
  {
  }

  lemma CancelStep(s: State)
    requires s.call == NoCall
    ensures Step(s, ACancelOpen) == s.(js := s.js.(closing := true), stop := true)
  {
  }

  lemma ControlStep(s: State, id: nat)
    requires s.call == NoCall && CanSubmit(s.js) && id !in s.js.pending
    ensures Step(s, AControl(id)) == s.(js := s.js.(ordered := s.js.ordered + 1), call := Enqueuing(Control(id)))
  {
  }

  lemma ReadStep(s: State, id: nat, length: nat)
    requires s.call == NoCall && CanSubmit(s.js) && id !in s.js.pending
    requires length >= 1 && !s.js.reading && !s.js.streaming
    ensures Step(s, ARead(id, length))
         == s.(js := s.js.(reading := true), call := Enqueuing(Command.Read(id, Min(length, CHUNK_SIZE))))
  {
  }

  lemma SettledStep(s: State)
    requires s.call == NoCall && s.js.reading && forall id :: id in s.js.pending ==> s.js.pending[id]
    ensures Step(s, AReadSettled) == s.(js := s.js.(reading := false))
  {
  }

  /** What an event changes on the JavaScript side. */
  function Handled(js: Binding, event: Event): Binding {
    match event
    case Opened => if js.closing then js else js.(isOpen := true)
    case Closed => Finish(js)
    case Done(id) => Settle(js, id)
    case ReadDone(id, _) => Settle(js, id)
    case ReadFailed(id) => Settle(js, id)
    case Data(item) => OnRead(js, item)
  }

  function Given(event: Event): seq<Bytes> { if event.ReadDone? then [event.data] else [] }

  lemma CallbackStep(s: State)
    requires s.call == NoCall && s.delivery == Idle && s.callbacks != []
    ensures var t := Step(s, ACallback);
            && t.js == Handled(s.js, s.callbacks[0]) && t.callbacks == s.callbacks[1..]
            && t.log.received == s.log.received + Given(s.callbacks[0])
            && t.delivery == Idle && t.call == NoCall && t.rx == s.rx && t.stop == s.stop
            && t.pendingOps == s.pendingOps && t.channel == s.channel
            && t.log.attempted == s.log.attempted && t.log.accepted == s.log.accepted
            && t.log.produced == s.log.produced
            && t.log.gap == s.log.gap && t.log.unsettled == Remaining(s.log.unsettled, s.callbacks[0])
  {
  }

  lemma NoPayload()
    ensures Flat<byte>([]) == []
  {
  }

  lemma PayloadFits(w: Writer, gap: Option<nat>, unsettled: set<nat>, attempted: Bytes)
    requires Tracks(w, gap, unsettled, attempted) && w.unsent != []
    ensures |w.unsent[0]| <= CHUNK_SIZE
  {
  }

  function Remaining(unsettled: set<nat>, event: Event): set<nat> {
    if event.Done? then unsettled - {event.id} else unsettled
  }

  lemma MicrotaskStep(s: State)
    requires s.call == NoCall && s.delivery == Idle && s.js.microtasks > 0 && s.js.pendingRead.Some?
    ensures Step(s, AMicrotask) == Deliver(s.(js := TakeRead(s.js)), Chunks(s.js.pendingRead.value), 0)
  {
  }

  lemma ReturnStep(s: State, events: seq<Bytes>, index: nat)
    requires s.call == NoCall && s.delivery == Listening(events, index)
    ensures Step(s, AListenerReturns) == Deliver(s.(js := s.js), events, index)
  {
  }

  lemma ThrowStep(s: State, events: seq<Bytes>, index: nat)
    requires s.call == NoCall && s.delivery == Listening(events, index) && index <= |events|
    ensures Step(s, AListenerThrows)
         == s.(js := if index < |events| && s.js.isOpen then Retain(s.js, events[index..]) else s.js, delivery := Idle)
  {
  }
}
