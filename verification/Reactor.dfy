/** The Rust end of a connection. */
module Reactors {
  import opened Common
  import opened Protocol
  import opened ProtocolInvariant
  import opened ProtocolSafety
  import opened Connections
  import ProtocolTheorems

  /** What `try_read` answers inside a burst. */
  datatype Answer = Got(data: Bytes) | NotReady | Broken

  /** The arms of the reactor's `select!`; a wake-up and the drain timer do nothing by themselves. */
  datatype Arm = Woken | Incoming | Reading(data: Bytes) | Wrote(count: nat) | Failed

  /** The binding's half of a state; a stop is never taken back, and a receiver that is gone stays gone. */
  ghost predicate SameBinding(s: State, t: State) {
    && (s.stop ==> t.stop) && (ReceiverOpen(t.rx.phase) ==> ReceiverOpen(s.rx.phase))
    && t.js == s.js && t.delivery == s.delivery && t.call == s.call
    && t.log.received == s.log.received && SameWrites(s, t)
  }

  predicate Writing(commands: seq<Command>) { commands != [] && commands[0].Write? }

  /** The front write has `count` bytes left to take after `written`. */
  predicate Takes(commands: seq<Command>, written: int, count: nat) {
    Writing(commands) && 1 <= count && 0 <= written && written + count <= |commands[0].data|
  }

  /** What is sent for commands that are finished. */
  function Answers(finished: seq<Command>): (r: seq<Event>)
    ensures |r| == |finished|
    ensures forall i :: 0 <= i < |finished| && finished[i].Ordered() ==> r[i] == Done(finished[i].id)
  {
    seq(|finished|, i requires 0 <= i < |finished| => if finished[i].Ordered() then Done(finished[i].id) else Closed)
  }

  lemma AnswersSnoc(commands: seq<Command>, done: nat)
    requires done < |commands| && commands[done].Ordered()
    ensures Answers(commands[..done + 1]) == Answers(commands[..done]) + [Done(commands[done].id)]
  {
  }

  /** How much the next streaming read may return. */
  function Room(rx: Protocol.Reactor): nat { if rx.bytes < 0 then 0 else Min(rx.bytes, rx.size) }

  /** The window after `reads`, one after the other. */
  function Charged(rx: Protocol.Reactor, chunks: seq<Bytes>): (r: Protocol.Reactor)
    ensures r.commands == rx.commands && r.written == rx.written
    ensures chunks == [] ==> r == rx
  {
    if chunks == [] then rx
    else
      var before := Charged(rx, chunks[..|chunks| - 1]);
      ChargeWindow(before, |chunks[|chunks| - 1]|, Room(before))
  }

  /** Nothing keeps a burst from reading on. */
  predicate MayFollow(rx: Protocol.Reactor, stop: bool, pendingOps: int) {
    !stop && pendingOps == 0 && rx.bytes > 0 && rx.slots > 0
  }

  /** The first chunk of a streaming read asks for followers: there is nothing to write, the device had
    more than it was asked for or a good deal, no operation is pending, and credit is left. */
  predicate StartsBurst(rx: Protocol.Reactor, pendingOps: int, data: Bytes) {
    && rx.streaming && !Writing(rx.commands) && (|data| == Room(rx) || |data| >= 1024)
    && pendingOps == 0 && rx.bytes > |data| && rx.slots > 1
  }

  /** Each follower is the device's non-empty answer to the next read, which was as long as the window
    allowed. */
  ghost predicate Followed(rx: Protocol.Reactor, device: (nat, nat) -> Answer, stop: bool, pendingOps: int,
                           followers: seq<Bytes>) {
    forall i :: 0 <= i < |followers| ==>
      var window := Charged(rx, followers[..i]);
      && MayFollow(window, stop, pendingOps)
      && followers[i] != [] && device(i + 1, Room(window)) == Got(followers[i])
  }

  /** What the device answers after the followers, if it is asked again. */
  function NextAnswer(rx: Protocol.Reactor, device: (nat, nat) -> Answer, stop: bool, pendingOps: int,
                      followers: seq<Bytes>): Option<Answer> {
    var window := Charged(rx, followers);
    if |followers| < 15 && MayFollow(window, stop, pendingOps) then Some(device(|followers| + 1, Room(window))) else None
  }

  /** The burst ends because it may not or need not go on, or because the device is not ready; only an
    error or an empty read ends the connection. */
  ghost predicate BurstEnds(rx: Protocol.Reactor, device: (nat, nat) -> Answer, stop: bool, pendingOps: int,
                            followers: seq<Bytes>, alive: bool) {
    var next := NextAnswer(rx, device, stop, pendingOps, followers);
    && |followers| <= 15 && Followed(rx, device, stop, pendingOps, followers)
    && (next.Some? && !next.value.NotReady? ==> next.value.Broken? || next.value.data == [])
    && (alive <==> next.None? || next.value.NotReady?)
  }

  /** The local state of `run_open`; `phase` says where its code is. */
  class ReactorLoop {
    const native: NativePort
    var phase: Phase
    var commands: seq<Command>
    var read: Option<(nat, nat)>
    var streaming: bool
    var bytes: int
    var slots: int
    var size: nat
    var written: nat
    var produced: seq<Bytes>    // what the device has returned

    ghost function Abs(): Protocol.Reactor
      reads this
    {
      Protocol.Reactor(phase, commands, read, streaming, bytes, slots, size, written)
    }

    ghost predicate Shows(s: State)
      reads this
    {
      s.rx == Abs() && s.log.produced == produced
    }

    ghost predicate Valid()
      reads this, native
    {
      native.Valid() && Shows(Run(native.history))
    }

    constructor (native: NativePort)
      requires native.Valid() && native.history == []
      ensures Valid() && this.native == native && phase == Opening
    {
      this.native := native;
      phase, commands, read, streaming := Opening, [], None, false;
      bytes, slots, size, written, produced := 0, 0, 1024, 0, [];
    }

    /** The end of `run_open`: the receiver is dropped. */
    method Exit()
      modifies this`phase, native`receiverOpen
      ensures phase == Exited && !native.receiverOpen
    {
      phase := Exited;
      native.receiverOpen := false;
    }

    /** `send` and its callers: a full queue ends `run_open`. */
    method Send(event: Event, next: Phase) returns (sent: bool)
      requires SessionOf(next) == native.session == Free && ReceiverOpen(next) == native.receiverOpen == true
      modifies this`phase, native`callbacks, native`receiverOpen
      ensures sent == (|old(native.callbacks)| < CALLBACK_CAPACITY)
      ensures native.callbacks == if sent then old(native.callbacks) + [event] else old(native.callbacks)
      ensures phase == (if sent then next else Exited) && native.receiverOpen == sent
    {
      sent := |native.callbacks| < CALLBACK_CAPACITY;
      if sent {
        native.callbacks := native.callbacks + [event];
        phase := next;
      } else {
        Exit();
      }
    }

    /** An I/O error, an empty transfer, or an observed stop. */
    method Fail()
      requires Valid() && phase.Ready?
      modifies this`phase, native`receiverOpen, native`history
      ensures Valid() && phase.Exited? && SameBinding(old(Run(native.history)), Run(native.history))
    {
      hide Run, Step;
      FailStep(Run(native.history));
      RunSnoc(native.history, RFail);
      native.history := native.history + [RFail];
      Exit();
    }

    /** Pop the finished front command and report it. */
    method CompleteFront() returns (sent: bool)
      requires Valid() && phase.Ready? && commands != [] && commands[0].Ordered()
      requires commands[0].Write? ==> written >= |commands[0].data|
      modifies this`commands, this`written, this`phase, native`pendingOps, native`callbacks, native`receiverOpen, native`history
      ensures Valid() && SameBinding(old(Run(native.history)), Run(native.history))
      ensures commands == old(commands)[1..] && native.pendingOps == old(native.pendingOps) - 1
      ensures sent && phase.Ready? && native.callbacks == old(native.callbacks) + [Done(old(commands)[0].id)]
    {
      hide Run, Step;
      ReaderIsKnown(native.history);
      CompleteStep(Run(native.history));
      RunSnoc(native.history, RComplete);
      RunSnoc(native.history + [RComplete], RPublishDone);
      native.history := native.history + [RComplete] + [RPublishDone];
      var event := Done(commands[0].id);
      PopFront();
      sent := Send(event, Ready);
    }

    method PopFront()
      requires commands != []
      modifies this`commands, this`written, native`pendingOps
      ensures native.pendingOps == old(native.pendingOps) - 1
      ensures Abs() == old(Abs()).(commands := old(commands)[1..],
                                   written := if old(commands)[0].Write? then 0 else old(written))
    {
      if commands[0].Write? { written := 0; }
      commands := commands[1..];
      native.pendingOps := native.pendingOps - 1;
    }

    /** `run` once the device has been opened. */
    method Open(ok: bool) returns (alive: bool)
      requires Valid() && phase.Opening?
      modifies this`phase, native`callbacks, native`receiverOpen, native`session, native`history
      ensures Valid() && SameBinding(old(Run(native.history)), Run(native.history))
      ensures if alive then phase.Ready? && native.callbacks == old(native.callbacks) + [Opened] else phase.Exited?
      ensures alive <==> ok && !native.stop
    {
      hide Run, Step;
      ReaderIsKnown(native.history);
      OpenStep(Run(native.history), ok);
      RunSnoc(native.history, ROpen(ok));
      native.history := native.history + [ROpen(ok)];
      native.session := Free;
      if !ok || native.stop {
        Exit();
        return false;
      }
      alive := Send(Opened, Ready);
    }

    /** The inner loop over finished commands; `blocked` holds the drains whose output queue is not
      empty yet.  The loop stops at a write in progress, at such a drain, or with no command left. */
    method CompleteCommands(blocked: set<nat>) returns (alive: bool, draining: bool)
      requires Valid() && phase.Ready?
      modifies this`commands, this`written, this`phase
      modifies native`pendingOps, native`callbacks, native`receiverOpen, native`history
      ensures Valid() && SameBinding(old(Run(native.history)), Run(native.history))
      ensures alive <==> !native.stop || old(commands) == []
      ensures if alive then phase.Ready? else phase.Exited?
      ensures |commands| <= |old(commands)| && commands == old(commands)[|old(commands)| - |commands|..]
      ensures old(native.pendingOps) - native.pendingOps == |old(commands)| - |commands|
      ensures native.callbacks == old(native.callbacks) + Answers(old(commands)[..|old(commands)| - |commands|])
      ensures forall i :: 0 <= i < |old(commands)| - |commands| ==> !old(commands)[i].Control? || old(commands)[i].id !in blocked
      ensures alive && !draining && commands != [] ==> commands[0].Write? && written < |commands[0].data|
      ensures draining ==> commands != [] && commands[0].Control? && commands[0].id in blocked
    {
      hide Run, Step, NativePort.Valid, SameBinding;
      alive, draining := true, false;
      ghost var was, done, s := commands, 0, Run(native.history);
      BindingSame(s);
      while commands != []
        invariant Valid() && phase.Ready? && !draining && SameBinding(s, Run(native.history)) && (native.stop ==> done == 0)
        invariant done <= |was| && commands == was[done..] && native.pendingOps == old(native.pendingOps) - done
        invariant native.callbacks == old(native.callbacks) + Answers(was[..done])
        invariant forall i :: 0 <= i < done ==> !was[i].Control? || was[i].id !in blocked
        decreases |commands|
      {
        ghost var t := Run(native.history);
        if native.stop {
          Fail();
          BindingChain(s, t, Run(native.history));
          return false, false;
        }
        FrontIsOrdered(native.history);
        draining := commands[0].Control? && commands[0].id in blocked;
        if draining || (commands[0].Write? && written < |commands[0].data|) { return; }
        AnswersSnoc(was, done);
        var _ := CompleteFront();
        done := done + 1;
        BindingChain(s, t, Run(native.history));
      }
    }

    /** A received command. */
    method Receive() returns (alive: bool)
      requires Valid() && phase.Ready? && native.channel != []
      modifies this`commands, this`read, this`streaming, this`bytes, this`slots, this`phase
      modifies native`channel, native`callbacks, native`receiverOpen, native`history
      ensures Valid() && SameBinding(old(Run(native.history)), Run(native.history))
      ensures native.channel == old(native.channel)[1..]
      ensures alive && phase.Ready?    // credits are always valid and reads never collide
      ensures native.callbacks == old(native.callbacks) && native.receiverOpen
      ensures var was := old(Abs());
              match old(native.channel)[0]
              case Read(id, length) => Abs() == was.(read := Some((id, length)))
              case Credit(more, slotsMore) =>
                Abs() == was.(bytes := was.bytes + more, slots := was.slots + slotsMore, streaming := true)
              case _ => Abs() == was.(commands := was.commands + [old(native.channel)[0]])
    {
      hide Run, RxReceive;
      ProtocolTheorems.CreditsAreValid(native.history);
      ReceiveStep(Run(native.history));
      ghost var before := native.history;
      alive := Dispatch();
      RunSnoc(before, RReceive);
    }

    /** The arms of `receiver.recv()`. */
    method Dispatch() returns (alive: bool)
      requires Valid() && phase.Ready? && native.channel != []
      modifies this`commands, this`read, this`streaming, this`bytes, this`slots, this`phase
      modifies native`channel, native`callbacks, native`receiverOpen, native`history
      ensures Valid() && native.history == old(native.history) + [RReceive]
      ensures native.channel == old(native.channel)[1..] && (alive <==> phase.Ready?)
    {
      hide Run, Step, Received, Reply;
      ReceiveStep(Run(native.history));
      RunSnoc(native.history, RReceive);
      native.history := native.history + [RReceive];
      var command := native.channel[0];
      native.channel := native.channel[1..];
      alive := Take(command);
    }

    method Take(command: Command) returns (alive: bool)
      requires phase.Ready? && native.session == Free && native.receiverOpen
      modifies this`commands, this`read, this`streaming, this`bytes, this`slots, this`phase
      modifies native`callbacks, native`receiverOpen
      ensures Abs() == Received(old(Abs()), command, |old(native.callbacks)| < CALLBACK_CAPACITY)
      ensures native.callbacks == old(native.callbacks) + Reply(old(Abs()), command, |old(native.callbacks)| < CALLBACK_CAPACITY)
      ensures alive == native.receiverOpen && phase == if alive then Ready else Exited
    {
      hide Run;
      alive := true;
      match command
      case Read(id, length) =>
        if read.Some? || streaming {
          alive := Send(ReadFailed(id), Ready);
        } else {
          read := Some((id, length));
        }
      case Credit(moreBytes, moreSlots) =>
        alive := AddCredit(moreBytes, moreSlots);
      case _ =>
        commands := commands + [command];
    }

    method AddCredit(moreBytes: nat, moreSlots: nat) returns (alive: bool)
      requires phase.Ready? && native.receiverOpen
      modifies this`bytes, this`slots, this`streaming, this`phase, native`receiverOpen
      ensures bytes == old(bytes) + moreBytes && slots == old(slots) + moreSlots
      ensures alive == !(read.Some? || bytes > CHUNK_SIZE || slots > READ_SLOTS) == native.receiverOpen
      ensures streaming == (alive || old(streaming)) && phase == if alive then Ready else Exited
    {
      bytes := bytes + moreBytes;
      slots := slots + moreSlots;
      if read.Some? || bytes > CHUNK_SIZE || slots > READ_SLOTS {
        Exit();
        return false;
      }
      streaming := true;
      return true;
    }

    /** The device has taken `count` bytes of the front write. */
    method Wrote(count: nat)
      requires Valid() && phase.Ready? && Writing(commands) && 1 <= count && written + count <= |commands[0].data|
      modifies this`written, native`accepted, native`history
      ensures Valid() && SameBinding(old(Run(native.history)), Run(native.history))
      ensures written == old(written) + count
      ensures native.accepted == old(native.accepted) + commands[0].data[old(written)..written]
    {
      hide Run, Step;
      WroteStep(Run(native.history), count);
      RunSnoc(native.history, RWrite(count));
      native.history := native.history + [RWrite(count)];
      native.accepted := native.accepted + commands[0].data[written..written + count];
      written := written + count;
    }

    // ---- Reads -----------------------------------------------------------------------------------------

    /** `read_length`. */
    function Readable(): (r: Option<nat>)
      reads this
      ensures r == ReadLength(Abs())
    {
      if read.Some? then Some(read.value.1) else if bytes > 0 && slots > 0 then Some(bytes) else None
    }

    /** `window.size` after a successful read. */
    method Resize(length: nat, capacity: nat)
      modifies this`size
      ensures size == NextSize(old(size), length, capacity)
    {
      size := if length == capacity then Min(size * 2, CHUNK_SIZE)
              else Max(64, Min(NextPowerOfTwo(length), CHUNK_SIZE));
    }

    /** The main reader has returned `data`: an explicit read is answered, a streaming chunk is
      published and may start a burst, for which `device` answers. */
    method HaveRead(data: Bytes, device: (nat, nat) -> Answer) returns (alive: bool)
      requires Valid() && phase.Ready? && ReadLength(Abs()).Some?
      requires 1 <= |data| <= Min(ReadLength(Abs()).value, size)
      requires forall i, capacity :: device(i, capacity).Got? ==> |device(i, capacity).data| <= capacity
      modifies this, native
      ensures Valid() && SameBinding(old(Run(native.history)), Run(native.history))
      ensures if alive then phase.Ready? else phase.Exited?
      ensures HasRead(old(Abs()), old(produced), data, device, alive)
      ensures commands == old(commands) && written == old(written)
      ensures old(native.callbacks) < native.callbacks
    {
      hide Run, Step, NativePort.Valid, Charged, ChargeWindow, Followed, NextAnswer;
      if streaming {
        var burst: bool;
        alive, burst := PublishFirst(data);
        if burst {
          alive := Burst(device);
          assert produced == old(produced) + [data] + produced[|old(produced)| + 1..];
        }
      } else {
        alive := AnswerRead(data);
      }
    }

    /** A read has been dealt with: `data` and the followers of a burst have been produced, and only a
      burst that the device breaks off ends the connection.  `was` is the window at the read. */
    ghost predicate HasRead(was: Protocol.Reactor, before: seq<Bytes>, data: Bytes, device: (nat, nat) -> Answer, alive: bool)
      reads this, native
    {
      var rx := was.(commands := commands, written := written);
      if StartsBurst(rx, native.pendingOps, data) then
        && before + [data] <= produced
        && BurstEnds(ChargeWindow(rx, |data|, Room(rx)).(phase := FirstSent), device, native.stop, native.pendingOps,
                     produced[|before| + 1..], alive)
      else produced == before + [data] && alive
    }

    /** An explicit read is answered. */
    method AnswerRead(data: Bytes) returns (alive: bool)
      requires Valid() && phase.Ready? && ReadLength(Abs()).Some? && !streaming
      requires 1 <= |data| <= Min(ReadLength(Abs()).value, size)
      modifies this`read, this`size, this`phase, this`produced
      modifies native`callbacks, native`receiverOpen, native`history
      ensures Valid() && SameBinding(old(Run(native.history)), Run(native.history))
      ensures alive && phase.Ready? && produced == old(produced) + [data]
      ensures old(read.Some?) && read.None?
      ensures native.callbacks == old(native.callbacks) + [ReadDone(old(read).value.0, data)]
      ensures bytes == old(bytes) && slots == old(slots)
      ensures size == NextSize(old(size), |data|, Min(old(Readable()).value, old(size)))
    {
      hide Run, Step, NextSize;
      ReaderIsKnown(native.history);
      var capacity := Min(Readable().value, size);
      AnswerStep(Run(native.history), data);
      RunSnoc(native.history, RRead(data));
      native.history := native.history + [RRead(data)];
      produced := produced + [data];
      Resize(|data|, capacity);
      var event := ReadDone(read.value.0, data);
      read := None;
      alive := Send(event, Ready);
    }

    method ChargeRead(data: Bytes, capacity: nat)
      modifies this`produced, this`size, this`bytes, this`slots
      ensures Abs() == ChargeWindow(old(Abs()), |data|, capacity) && produced == old(produced) + [data]
    {
      hide NextSize;
      produced := produced + [data];
      Resize(|data|, capacity);
      bytes := bytes - |data|;
      slots := slots - 1;
    }

    /** The first chunk of a streaming read; `burst` tells whether followers are collected. */
    method PublishFirst(data: Bytes) returns (alive: bool, burst: bool)
      requires Valid() && phase.Ready? && ReadLength(Abs()).Some? && streaming
      requires 1 <= |data| <= Min(ReadLength(Abs()).value, size)
      modifies this`bytes, this`slots, this`size, this`phase, this`produced
      modifies native`callbacks, native`receiverOpen, native`history
      ensures Valid() && SameBinding(old(Run(native.history)), Run(native.history))
      ensures alive && produced == old(produced) + [data]
      ensures native.callbacks == old(native.callbacks) + [Data(Single(data))]
      ensures bytes == old(bytes) - |data| && slots == old(slots) - 1
      ensures size == NextSize(old(size), |data|, Min(old(Readable()).value, old(size)))
      ensures burst <==> StartsBurst(old(Abs()), native.pendingOps, data)
      ensures Abs() == ChargeWindow(old(Abs()), |data|, Room(old(Abs()))).(phase := if burst then FirstSent else Ready)
    {
      hide Run, Step, NextSize;
      ReaderIsKnown(native.history);
      var capacity := Min(Readable().value, size);
      StreamStep(Run(native.history), data);
      RunSnoc(native.history, RRead(data));
      native.history := native.history + [RRead(data)];
      ChargeRead(data, capacity);
      burst := !(Writing(commands) || (|data| != capacity && |data| < 1024) || native.pendingOps != 0
                 || bytes == 0 || slots == 0);
      alive := Send(Data(Single(data)), if burst then FirstSent else Ready);
    }

    // ---- Bursts ----------------------------------------------------------------------------------------

    /** `send_ready_reads` after the first chunk: at most 15 followers under one lock, published
      after the lock is released and before an error of a later read is reported. */
    method Burst(device: (nat, nat) -> Answer) returns (alive: bool)
      requires Valid() && phase.FirstSent?
      requires forall i, capacity :: device(i, capacity).Got? ==> |device(i, capacity).data| <= capacity
      modifies this, native
      ensures Valid() && SameBinding(old(Run(native.history)), Run(native.history))
      ensures if alive then phase.Ready? else phase.Exited?
      ensures old(produced) <= produced
      ensures var followers := produced[|old(produced)|..];
              && BurstEnds(old(Abs()), device, native.stop, native.pendingOps, followers, alive)
              && Abs() == Charged(old(Abs()), followers).(phase := phase)
              && native.callbacks == old(native.callbacks) + (if followers == [] then [] else [Data(Followers(followers))])
      ensures native.stop == old(native.stop) && native.pendingOps == old(native.pendingOps)
    {
      hide Run, Step, NativePort.Valid, NextSize, Charged, ChargeWindow, BurstEnds, Followed, NextAnswer;
      ghost var rx := Abs();
      Lock();
      var first, batch, failed := Collect(device, rx);
      Unlock(failed);
      alive := Publish(first, batch, failed);
      assert produced[|old(produced)|..] == Gathered(first, batch);
    }

    /** The loop under the lock. */
    method Collect(device: (nat, nat) -> Answer, ghost rx: Protocol.Reactor)
      returns (first: Option<Bytes>, batch: seq<Bytes>, failed: bool)
      requires Valid() && phase == Bursting([]) && Abs() == rx.(phase := phase)
      requires forall i, capacity :: device(i, capacity).Got? ==> |device(i, capacity).data| <= capacity
      modifies this`phase, this`bytes, this`slots, this`size, this`produced, native`history
      ensures Valid() && SameBinding(old(Run(native.history)), Run(native.history))
      ensures phase == Bursting(Gathered(first, batch)) && produced == old(produced) + Gathered(first, batch)
      ensures (first.Some? ==> batch == []) && |batch| != 1
      ensures Abs() == Charged(rx, Gathered(first, batch)).(phase := phase)
      ensures BurstEnds(rx, device, native.stop, native.pendingOps, Gathered(first, batch), !failed)
    {
      hide Run, Step, NativePort.Valid, NextSize, Charged, Followed, BurstEnds, SameBinding;
      first, batch, failed := None, [], false;
      ghost var s := Run(native.history);
      BindingSame(s);
      var i := 1;
      NobodyFollowed(rx, device, native.stop, native.pendingOps);
      while i < READ_BURST_LIMIT
        invariant 1 <= i <= READ_BURST_LIMIT && Valid() && phase == Bursting(Gathered(first, batch))
        invariant SameBinding(s, Run(native.history))
        invariant |Gathered(first, batch)| == i - 1 && (first.Some? ==> batch == []) && |batch| != 1
        invariant produced == old(produced) + Gathered(first, batch)
        invariant Abs() == Charged(rx, Gathered(first, batch)).(phase := phase)
        invariant Followed(rx, device, native.stop, native.pendingOps, Gathered(first, batch))
      {
        if native.stop || native.pendingOps != 0 || bytes == 0 || slots == 0 { break; }
        ReaderIsKnown(native.history);
        var answer := device(i, Min(bytes, size));
        if answer.NotReady? { break; }
        if answer.Broken? || |answer.data| == 0 {
          failed := true;
          break;
        }
        ghost var t := Run(native.history);
        FollowNext(answer.data, device, rx);
        BindingChain(s, t, Run(native.history));
        first, batch := Joined(first, batch, answer.data);
        i := i + 1;
      }
      ReaderIsKnown(native.history);
      CollectEnds(rx, device, native.stop, native.pendingOps, Gathered(first, batch), failed);
    }

    method FollowNext(data: Bytes, ghost device: (nat, nat) -> Answer, ghost rx: Protocol.Reactor)
      requires Valid() && phase.Bursting? && |phase.batch| + 1 < READ_BURST_LIMIT && 1 <= |data| <= Min(bytes, size)
      requires MayFollow(Abs(), native.stop, native.pendingOps)
      requires Abs() == Charged(rx, phase.batch).(phase := phase)
      requires Followed(rx, device, native.stop, native.pendingOps, phase.batch)
      requires device(|phase.batch| + 1, Room(Abs())) == Got(data)
      modifies this`phase, this`bytes, this`slots, this`size, this`produced, native`history
      ensures Valid() && SameBinding(old(Run(native.history)), Run(native.history))
      ensures phase == Bursting(old(phase).batch + [data]) && produced == old(produced) + [data]
      ensures Abs() == Charged(rx, phase.batch).(phase := phase)
      ensures Followed(rx, device, native.stop, native.pendingOps, phase.batch)
    {
      hide Run, Step, NativePort.Valid, NextSize, Charged, Followed;
      FollowedSnoc(rx, device, native.stop, native.pendingOps, phase.batch, data);
      Follow(data);
    }

    method Lock()
      requires Valid() && phase.FirstSent?
      modifies this`phase, native`session, native`history
      ensures Valid() && SameBinding(old(Run(native.history)), Run(native.history)) && phase == Bursting([])
      ensures Abs() == old(Abs()).(phase := Bursting([]))
    {
      hide Run, Step;
      LockStep(Run(native.history));
      RunSnoc(native.history, RBurstLock);
      native.history := native.history + [RBurstLock];
      phase := Bursting([]);
      native.session := Locked;
    }

    /** One follower. */
    method Follow(data: Bytes)
      requires Valid() && phase.Bursting? && |phase.batch| + 1 < READ_BURST_LIMIT
      requires !native.stop && native.pendingOps == 0 && bytes > 0 && slots > 0 && 1 <= |data| <= Min(bytes, size)
      modifies this`phase, this`bytes, this`slots, this`size, this`produced, native`history
      ensures Valid() && SameBinding(old(Run(native.history)), Run(native.history))
      ensures phase == Bursting(old(phase).batch + [data]) && produced == old(produced) + [data]
      ensures Abs() == ChargeWindow(old(Abs()), |data|, Room(old(Abs()))).(phase := phase)
    {
      hide Run, Step, NextSize;
      FollowStep(Run(native.history), data);
      RunSnoc(native.history, RBurstRead(data));
      native.history := native.history + [RBurstRead(data)];
      phase := Bursting(phase.batch + [data]);
      produced := produced + [data];
      Resize(|data|, Min(bytes, size));
      bytes := bytes - |data|;
      slots := slots - 1;
    }

    method Unlock(failed: bool)
      requires Valid() && phase.Bursting?
      modifies this`phase, native`session, native`history
      ensures Valid() && SameBinding(old(Run(native.history)), Run(native.history))
      ensures phase == Publishing(old(phase).batch, failed)
    {
      hide Run, Step;
      UnlockStep(Run(native.history), failed);
      RunSnoc(native.history, RBurstEnd(failed));
      native.history := native.history + [RBurstEnd(failed)];
      phase := Publishing(phase.batch, failed);
      native.session := Free;
    }

    method Publish(first: Option<Bytes>, batch: seq<Bytes>, failed: bool) returns (alive: bool)
      requires Valid() && phase == Publishing(Gathered(first, batch), failed)
      requires (first.Some? ==> batch == []) && |batch| != 1
      modifies this`phase, native`callbacks, native`receiverOpen, native`history
      ensures Valid() && SameBinding(old(Run(native.history)), Run(native.history))
      ensures alive == !failed && phase == if failed then Exited else Ready
      ensures var all := Gathered(first, batch);
              native.callbacks == old(native.callbacks) + (if all == [] then [] else [Data(Followers(all))])
    {
      hide Run, Step;
      ReaderIsKnown(native.history);
      PublishStep(Run(native.history));
      RunSnoc(native.history, RPublish);
      native.history := native.history + [RPublish];
      alive := true;
      if first.Some? {
        alive := Send(Data(Single(first.value)), Ready);
      } else if batch != [] {
        alive := Send(Data(Batch(batch)), Ready);
      } else {
        phase := Ready;
      }
      if alive && failed {
        Exit();
        alive := false;
      }
    }

    /** A single follower is kept by itself; a second one makes a batch. */
    static method Joined(first: Option<Bytes>, batch: seq<Bytes>, data: Bytes)
      returns (next: Option<Bytes>, all: seq<Bytes>)
      requires (first.Some? ==> batch == []) && |batch| != 1
      ensures Gathered(next, all) == Gathered(first, batch) + [data]
      ensures (next.Some? ==> all == []) && |all| != 1
    {
      if first.Some? { return None, [first.value, data]; }
      if batch == [] { return Some(data), []; }
      return None, batch + [data];
    }

    // ---- One turn and the end ----------------------------------------------------------------------------

    /** One pass of the outer loop of `run_open`: what is finished is completed, then the first
      ready arm of `select!` runs. */
    method Turn(blocked: set<nat>, ready: Arm, device: (nat, nat) -> Answer) returns (alive: bool)
      requires Valid() && phase.Ready?
      requires forall i, capacity :: device(i, capacity).Got? ==> |device(i, capacity).data| <= capacity
      modifies this, native
      ensures Valid() && SameBinding(old(Run(native.history)), Run(native.history))
      ensures if alive then phase.Ready? else phase.Exited?
      ensures old(native.stop) ==> !alive
      ensures !old(native.stop) ==>
                match ready
                case Woken => alive && native.channel == old(native.channel)
                case Incoming => alive && native.channel == if old(native.channel) == [] then [] else old(native.channel)[1..]
                case Reading(data) =>
                  if old(Readable()).Some? && 1 <= |data| <= Min(old(Readable()).value, old(size))
                  then HasRead(old(Abs()), old(produced), data, device, alive)
                  else alive && produced == old(produced)
                case Wrote(count) =>
                  && alive
                  && ((native.accepted == old(native.accepted) && !Takes(commands, written, count))
                      || (Takes(commands, written - count, count)
                          && native.accepted == old(native.accepted) + commands[0].data[written - count..written]))
                case Failed => alive <==> old(Readable()).None? && !Writing(commands)
    {
      hide Run, Step, NativePort.Valid, BurstEnds, StartsBurst, ChargeWindow;
      if native.stop {
        Fail();
        return false;
      }
      var draining: bool;
      alive, draining := CompleteCommands(blocked);
      if !alive { return; }
      match ready
      case Woken =>
      case Incoming =>
        if native.channel != [] { alive := Receive(); }
      case Reading(data) =>
        if Readable().Some? && 1 <= |data| <= Min(Readable().value, size) { alive := HaveRead(data, device); }
      case Wrote(count) =>
        if Writing(commands) && 1 <= count && written + count <= |commands[0].data| { Wrote(count); }
      case Failed =>
        if Readable().Some? || Writing(commands) {
          Fail();
          alive := false;
        }
    }

    /** The drop guard: stop, take the port, and report the close. */
    method Release()
      requires Valid() && phase.Exited?
      modifies this`phase, native`stop, native`session, native`callbacks, native`history
      ensures Valid() && SameBinding(old(Run(native.history)), Run(native.history))
      ensures phase.Gone? && native.stop && native.session == Absent
      ensures native.callbacks == old(native.callbacks) + [Closed]
    {
      hide Run, Step;
      ReaderIsKnown(native.history);
      ReleaseStep(Run(native.history));
      RunSnoc(native.history, RRelease);
      RunSnoc(native.history + [RRelease], RClose);
      native.history := native.history + [RRelease] + [RClose];
      native.stop := true;
      native.session := Absent;
      native.callbacks := native.callbacks + [Closed];
      phase := Gone;
    }
  }

  lemma BindingSame(s: State)
    ensures SameBinding(s, s)
  {
  }

  lemma BindingChain(s: State, t: State, u: State)
    requires SameBinding(s, t) && SameBinding(t, u)
    ensures SameBinding(s, u)
  {
  }

  lemma NobodyFollowed(rx: Protocol.Reactor, device: (nat, nat) -> Answer, stop: bool, pendingOps: int)
    ensures Followed(rx, device, stop, pendingOps, [])
  {
  }

  lemma CollectEnds(rx: Protocol.Reactor, device: (nat, nat) -> Answer, stop: bool, pendingOps: int,
                    followers: seq<Bytes>, failed: bool)
    requires |followers| <= 15 && Followed(rx, device, stop, pendingOps, followers)
    requires var next := NextAnswer(rx, device, stop, pendingOps, followers);
             if failed then next.Some? && (next.value.Broken? || next.value == Got([])) else next.None? || next.value.NotReady?
    ensures BurstEnds(rx, device, stop, pendingOps, followers, !failed)
  {
    hide Followed, NextAnswer;
  }

  /** One more follower. */
  lemma FollowedSnoc(rx: Protocol.Reactor, device: (nat, nat) -> Answer, stop: bool, pendingOps: int,
                     followers: seq<Bytes>, data: Bytes)
    requires Followed(rx, device, stop, pendingOps, followers)
    requires MayFollow(Charged(rx, followers), stop, pendingOps) && data != []
    requires device(|followers| + 1, Room(Charged(rx, followers))) == Got(data)
    ensures Followed(rx, device, stop, pendingOps, followers + [data])
    ensures Charged(rx, followers + [data])
         == ChargeWindow(Charged(rx, followers), |data|, Room(Charged(rx, followers)))
  {
    hide ChargeWindow, MayFollow, Room;
    var all := followers + [data];
    assert all[..|followers|] == followers;
    forall i | 0 <= i < |all|
      ensures var window := Charged(rx, all[..i]);
              && MayFollow(window, stop, pendingOps)
              && all[i] != [] && device(i + 1, Room(window)) == Got(all[i])
    {
      if i < |followers| { assert all[..i] == followers[..i] && all[i] == followers[i]; }
    }
  }

  lemma FailStep(s: State)
    requires s.rx.phase.Ready?
    ensures Step(s, RFail) == s.(rx := s.rx.(phase := Exited))
  {
  }

  function Sent(s: State, e: Event): seq<Event> {
    if |s.callbacks| < CALLBACK_CAPACITY then s.callbacks + [e] else s.callbacks
  }

  function After(s: State, next: Phase): Phase { if |s.callbacks| < CALLBACK_CAPACITY then next else Exited }

  lemma OpenStep(s: State, ok: bool)
    requires s.rx.phase.Opening?
    ensures Step(s, ROpen(ok))
         == if !ok || s.stop then s.(rx := s.rx.(phase := Exited))
            else s.(rx := s.rx.(phase := After(s, Ready)), callbacks := Sent(s, Opened))
  {
  }

  /** Only ordered commands are in the backlog. */
  lemma FrontIsOrdered(history: seq<Action>)
    ensures var commands := Run(history).rx.commands; commands != [] ==> commands[0].Ordered()
  {
    Safety(history);
    BacklogIsOrdered(Run(history));
  }

  lemma BacklogIsOrdered(s: State)
    requires Inv(s)
    ensures s.rx.commands != [] ==> s.rx.commands[0].Ordered()
  {
  }

  lemma ReceiveStep(s: State)
    requires s.rx.phase.Ready? && s.channel != []
    ensures var c, room := s.channel[0], |s.callbacks| < CALLBACK_CAPACITY;
            Step(s, RReceive)
            == s.(rx := Received(s.rx, c, room), callbacks := s.callbacks + Reply(s.rx, c, room), channel := s.channel[1..])
  {
    assert s.callbacks + [] == s.callbacks;
  }

  /** What a received command does to the reactor; `room` says whether an event can be sent. */
  function Received(rx: Protocol.Reactor, c: Command, room: bool): Protocol.Reactor {
    match c
    case Read(id, length) =>
      if rx.read.Some? || rx.streaming then rx.(phase := if room then Ready else Exited)
      else rx.(read := Some((id, length)))
    case Credit(bytes, slots) =>
      var more := rx.(bytes := rx.bytes + bytes, slots := rx.slots + slots);
      if rx.read.Some? || more.bytes > CHUNK_SIZE || more.slots > READ_SLOTS then more.(phase := Exited)
      else more.(streaming := true)
    case _ => rx.(commands := rx.commands + [c])
  }

  function Reply(rx: Protocol.Reactor, c: Command, room: bool): seq<Event> {
    if c.Read? && (rx.read.Some? || rx.streaming) && room then [ReadFailed(c.id)] else []
  }

  lemma WroteStep(s: State, count: nat)
    requires s.rx.phase.Ready? && Writing(s.rx.commands) && 1 <= count
    requires s.rx.written + count <= |s.rx.commands[0].data|
    ensures Step(s, RWrite(count))
         == s.(rx := s.rx.(written := s.rx.written + count),
               log := s.log.(accepted := s.log.accepted
                                         + s.rx.commands[0].data[s.rx.written..s.rx.written + count]))
  {
  }

  /** A read without an explicit request belongs to the stream, and `send` finds room. */
  lemma ReaderIsKnown(history: seq<Action>)
    ensures var s := Run(history);
            && |s.callbacks| < CALLBACK_CAPACITY && s.rx.bytes >= 0 && s.rx.slots >= 0
            && (ReadLength(s.rx).Some? && !s.rx.streaming ==> s.rx.read.Some?)
            && (s.rx.streaming ==> s.rx.read.None?)
  {
    Safety(history);
    ProtocolTheorems.CallbacksFit(history);
    ReaderFacts(Run(history));
  }

  lemma ReaderFacts(s: State)
    requires Inv(s)
    ensures s.rx.bytes >= 0 && s.rx.slots >= 0
    ensures ReadLength(s.rx).Some? && !s.rx.streaming ==> s.rx.read.Some?
    ensures s.rx.streaming ==> s.rx.read.None?
  {
  }

  lemma AnswerStep(s: State, data: Bytes)
    requires s.rx.phase.Ready? && !s.rx.streaming && s.rx.read.Some?
    requires 1 <= |data| <= Min(s.rx.read.value.1, s.rx.size)
    ensures Step(s, RRead(data))
         == s.(rx := s.rx.(read := None, size := NextSize(s.rx.size, |data|, Min(s.rx.read.value.1, s.rx.size)),
                           phase := After(s, Ready)),
               callbacks := Sent(s, ReadDone(s.rx.read.value.0, data)),
               log := s.log.(produced := s.log.produced + [data]))
  {
    hide NextSize;
  }

  lemma StreamStep(s: State, data: Bytes)
    requires s.rx.phase.Ready? && s.rx.streaming && ReadLength(s.rx).Some?
    requires 1 <= |data| <= Min(ReadLength(s.rx).value, s.rx.size)
    ensures var capacity := Min(ReadLength(s.rx).value, s.rx.size);
            var rx := ChargeWindow(s.rx, |data|, capacity);
            var burst := !(Writing(s.rx.commands) || (|data| != capacity && |data| < 1024) || s.pendingOps != 0
                           || rx.bytes == 0 || rx.slots == 0);
            Step(s, RRead(data))
            == s.(rx := rx.(phase := After(s, if burst then FirstSent else Ready)),
                  callbacks := Sent(s, Data(Single(data))),
                  log := s.log.(produced := s.log.produced + [data]))
  {
    hide NextSize;
  }

  function Gathered(first: Option<Bytes>, batch: seq<Bytes>): seq<Bytes> {
    if first.Some? then [first.value] else batch
  }

  lemma LockStep(s: State)
    requires s.rx.phase.FirstSent?
    ensures Step(s, RBurstLock) == s.(rx := s.rx.(phase := Bursting([])))
  {
  }

  lemma FollowStep(s: State, data: Bytes)
    requires s.rx.phase.Bursting? && |s.rx.phase.batch| + 1 < READ_BURST_LIMIT
    requires !s.stop && s.pendingOps == 0 && s.rx.bytes > 0 && s.rx.slots > 0
    requires 1 <= |data| <= Min(s.rx.bytes, s.rx.size)
    ensures Step(s, RBurstRead(data))
         == s.(rx := ChargeWindow(s.rx, |data|, Min(s.rx.bytes, s.rx.size))
                       .(phase := Bursting(s.rx.phase.batch + [data])),
               log := s.log.(produced := s.log.produced + [data]))
  {
    hide NextSize;
  }

  lemma UnlockStep(s: State, failed: bool)
    requires s.rx.phase.Bursting?
    ensures Step(s, RBurstEnd(failed)) == s.(rx := s.rx.(phase := Publishing(s.rx.phase.batch, failed)))
  {
  }

  lemma PublishStep(s: State)
    requires s.rx.phase.Publishing?
    ensures var batch, next := s.rx.phase.batch, if s.rx.phase.failed then Exited else Ready;
            Step(s, RPublish)
            == if batch == [] then s.(rx := s.rx.(phase := next))
               else s.(rx := s.rx.(phase := After(s, next)), callbacks := Sent(s, Data(Followers(batch))))
  {
  }

  lemma ReleaseStep(s: State)
    requires s.rx.phase.Exited? && |s.callbacks| < CALLBACK_CAPACITY
    ensures Step(Step(s, RRelease), RClose)
         == s.(rx := s.rx.(phase := Gone), stop := true, callbacks := s.callbacks + [Closed])
  {
  }

  lemma CompleteStep(s: State)
    requires s.rx.phase.Ready? && s.rx.commands != [] && s.rx.commands[0].Ordered()
    requires s.rx.commands[0].Write? ==> s.rx.written >= |s.rx.commands[0].data|
    ensures var c := s.rx.commands[0];
            Step(Step(s, RComplete), RPublishDone)
            == s.(rx := s.rx.(commands := s.rx.commands[1..], written := if c.Write? then 0 else s.rx.written,
                              phase := After(s, Ready)),
                  pendingOps := s.pendingOps - 1, callbacks := Sent(s, Done(c.id)))
  {
  }
}
