/** Both ends of a connection at work. */
module Sessions {
  import opened Common
  import opened Protocol
  import opened ProtocolInvariant
  import opened ProtocolSafety
  import opened Connections
  import opened Bindings
  import opened Reactors
  import ProtocolTheorems
  import ProtocolWrites

  /** One call on either thread. */
  datatype Move =
    | Write(data: Bytes, device: nat -> Option<nat>) | WriteMany(buffers: seq<Bytes>, device: nat -> Option<nat>)
    | Continue(device: nat -> Option<nat>) | Request | ReadChunk(length: nat) | StartReading(limit: int)
    | Callback | Microtask(reactions: seq<Reaction>) | Settled | Close | Cancel
    | Open(ok: bool) | Turn(blocked: set<nat>, arm: Arm, answer: (nat, nat) -> Answer) | Release

  /** What the environment may do: no transfer is longer than its buffer. */
  ghost predicate Possible(m: Move) {
    && (m.Write? || m.WriteMany? || m.Continue? ==> Sane(m.device))
    && (m.Turn? ==> forall i, n :: m.answer(i, n).Got? ==> |m.answer(i, n).data| <= n)
  }

  /** What has happened so far, read off the fields of the three objects. */
  datatype Account = Account(
    open: bool, receiving: bool, streaming: bool,
    readBytes: int, readSlots: int, bytes: int, slots: int,
    channel: seq<Command>, callbacks: seq<Event>,
    received: seq<Bytes>, produced: seq<Bytes>, submitted: Bytes, accepted: seq<Cell>)

  /** The same for the writes of the application: all it has asked for, the last failure of a write,
    whether one is in progress with its last promise unsettled or payloads left, and whether the port is
    closing, stopped, or without a receiver. */
  datatype WriteAccount = WriteAccount(
    asked: Bytes, failed: Option<Failure>, writing: bool, ending: bool, accepted: seq<Cell>)

  /** As long as no write has failed, the device has taken the first bytes of what was asked for; all of
    them, as soon as the last write has been answered.  A write fails only on a port that is ending, or
    because too many requests were pending. */
  ghost predicate WritesBalance(a: WriteAccount) {
    && (a.failed.None? ==> a.accepted <= Tag(a.asked, 0) && (!a.writing ==> a.accepted == Tag(a.asked, 0)))
    && (a.failed.Some? ==> a.ending || a.failed == Some(Crowded))
  }

  /** The fields after any sequence of moves keep the books of the protocol. */
  ghost predicate Balanced(a: Account) {
    && a.received <= a.produced
    && (a.open && a.streaming && a.receiving ==>
          var waiting := a.produced[|a.received|..];
          && a.readBytes == a.bytes + CreditBytes(a.channel) + |Flat(waiting)|
          && a.readSlots == a.slots + CreditSlots(a.channel) + |waiting|)
    && |a.callbacks| <= MAX_PENDING_OPS + READ_SLOTS + 2
    && Faithful(a.accepted, a.submitted)
    && (a.receiving ==> a.accepted <= Tag(a.submitted, 0))
  }

  ghost function Books(s: State): Account {
    Account(s.js.isOpen, ReceiverOpen(s.rx.phase), s.js.streaming, s.js.readBytes, s.js.readSlots,
            s.rx.bytes, s.rx.slots, s.channel, s.callbacks,
            s.log.received, s.log.produced, s.log.attempted, s.log.accepted)
  }

  lemma {:induction false} BooksBalance(history: seq<Action>)
    ensures Balanced(Books(Run(history)))
  {
    hide Run, InFlight, Faithful, Tag;
    var s := Run(history);
    ProtocolTheorems.CreditsAreConserved(history);
    ProtocolTheorems.CallbacksFit(history);
    ProtocolTheorems.WritesAreFaithful(history);
    ProtocolTheorems.WritesAreGapless(history);
    ProtocolTheorems.ReadsAreInOrder(history);
    Received(history);
    if s.js.isOpen { assert s.log.produced[|s.log.received|..] == InFlight(s); }
  }

  lemma Received(history: seq<Action>)
    ensures var log := Run(history).log; log.received <= log.produced
  {
    Safety(history);
    ProtocolTheorems.ReceivedFacts(Run(history));
  }

  /** The JavaScript thread runs one call to its end. */
  method MoveBinding(port: BindingPort, m: Move)
    requires port.Valid() && port.call == NoCall && port.delivery == Idle && Possible(m)
    modifies port, port.native
    ensures port.Valid() && port.call == NoCall && port.delivery == Idle
    ensures SameReactor(old(Run(port.native.history)), Run(port.native.history))
  {
    hide Run, NativePort.Valid;
    match m
    case Write(data, device) =>
      var _, _ := port.Write(data, device);
    case WriteMany(buffers, device) =>
      var _, _ := port.WriteMany(buffers, device);
    case Continue(device) => port.ContinueWrite(device);
    case Request => var _ := port.Request();
    case ReadChunk(length) => var _ := port.ReadChunk(length);
    case StartReading(limit) => var _ := port.StartReading(limit);
    case _ => MoveLoop(port, m);
  }

  method MoveLoop(port: BindingPort, m: Move)
    requires port.Valid() && port.call == NoCall && port.delivery == Idle
    modifies port, port.native
    ensures port.Valid() && port.call == NoCall && port.delivery == Idle
    ensures SameReactor(old(Run(port.native.history)), Run(port.native.history))
  {
    hide Run, NativePort.Valid;
    match m
    case Callback =>
      if port.native.callbacks != [] { port.OnCallback(); }
    case Microtask(reactions) =>
      if port.microtasks > 0 { var _, _ := port.DeliverRead(reactions); }
    case Settled =>
      if port.reading && forall id :: id in port.pending ==> port.pending[id] { port.ReadSettled(); }
    case Close => var _ := port.Close();
    case Cancel => port.CancelOpen();
    case _ =>
  }

  /** The reactor thread runs until it next waits. */
  method MoveReactor(loop: ReactorLoop, m: Move)
    requires loop.Valid() && Possible(m)
    requires loop.phase.Opening? || loop.phase.Ready? || loop.phase.Exited? || loop.phase.Gone?
    modifies loop, loop.native
    ensures loop.Valid() && SameBinding(old(Run(loop.native.history)), Run(loop.native.history))
    ensures loop.phase.Opening? || loop.phase.Ready? || loop.phase.Exited? || loop.phase.Gone?
  {
    hide Run, NativePort.Valid;
    match m
    case Open(ok) =>
      if loop.phase.Opening? { var _ := loop.Open(ok); }
    case Turn(blocked, arm, answer) =>
      if loop.phase.Ready? { var _ := loop.Turn(blocked, arm, answer); }
    case Release =>
      if loop.phase.Exited? { loop.Release(); }
    case _ =>
  }

  /** Neither end disturbs the other. */
  method MakeMove(port: BindingPort, loop: ReactorLoop, m: Move)
    requires port.native == loop.native && Possible(m)
    requires port.Valid() && port.call == NoCall && port.delivery == Idle && loop.Valid()
    requires loop.phase.Opening? || loop.phase.Ready? || loop.phase.Exited? || loop.phase.Gone?
    modifies port, loop, port.native
    ensures port.Valid() && port.call == NoCall && port.delivery == Idle && loop.Valid()
    ensures loop.phase.Opening? || loop.phase.Ready? || loop.phase.Exited? || loop.phase.Gone?
  {
    hide Run, Possible, Tracks;
    if m.Open? || m.Turn? || m.Release? {
      MoveReactor(loop, m);
    } else {
      MoveBinding(port, m);
    }
  }

  /** A connection under any sequence of moves: its fields always balance, and nothing that a write has
    been asked to send is lost, repeated or reordered. */
  method Connect(moves: seq<Move>) returns (account: Account, writes: WriteAccount)
    requires forall m :: m in moves ==> Possible(m)
    ensures Balanced(account) && WritesBalance(writes) && writes.accepted == account.accepted
  {
    hide Run, NativePort.Valid, BindingPort.Valid, ReactorLoop.Valid, Balanced, WritesBalance, Possible;
    var native := new NativePort();
    var port := new BindingPort(native);
    var loop := new ReactorLoop(native);
    for i := 0 to |moves|
      invariant port.native == loop.native == native && fresh(native) && fresh(port) && fresh(loop)
      invariant port.Valid() && port.call == NoCall && port.delivery == Idle && loop.Valid()
      invariant loop.phase.Opening? || loop.phase.Ready? || loop.phase.Exited? || loop.phase.Gone?
    {
      assert moves[i] in moves;
      MakeMove(port, loop, moves[i]);
    }
    account := Read(native, port, loop);
    writes := ReadWrites(port);
  }

  method ReadWrites(port: BindingPort) returns (writes: WriteAccount)
    requires port.Valid() && port.call == NoCall
    ensures WritesBalance(writes) && writes.accepted == port.native.accepted
  {
    hide Run, Tracks, Tag;
    ghost var s := Run(port.native.history);
    writes := WriteAccount(
      port.writer.asked, port.writer.failed, port.writer.progress.Waiting? || port.writer.unsent != [],
      port.closing || port.finished || port.native.stop || !port.native.receiverOpen, port.native.accepted);
    WritesAreTaken(port.native.history, port.writer);
    FailuresAreJustified(port.writer, port.isOpen, port.closing, port.finished, port.pending,
                         port.native.stop, port.native.receiverOpen);
  }

  lemma FailuresAreJustified(w: Writer, isOpen: bool, closing: bool, finished: bool, pending: map<nat, bool>,
                             stop: bool, receiving: bool)
    requires Justified(w, isOpen, closing, finished, pending, stop, receiving)
    ensures w.failed.Some? ==> closing || finished || stop || !receiving || w.failed == Some(Crowded)
  {
    if w.failed.Some? {
      match w.failed.value
      case NotOpen =>
      case Crowded =>
      case Unsubmitted =>
      case Aborted =>
    }
  }

  /** What the two ends say about writes, together. */
  lemma {:induction false} WritesAreTaken(history: seq<Action>, w: Writer)
    requires var s := Run(history); s.call == NoCall && Tracks(w, s.log.gap, s.log.unsettled, s.log.attempted)
    ensures var accepted := Run(history).log.accepted;
            w.failed.None? ==>
              && accepted <= Tag(w.asked, 0)
              && (!w.progress.Waiting? && w.unsent == [] ==> accepted == Tag(w.asked, 0))
  {
    hide Run;
    var log := Run(history).log;
    if w.failed.None? {
      ProtocolTheorems.WritesAreGapless(history);
      TagPrefix(log.attempted, Flat(w.unsent));
      if !w.progress.Waiting? && w.unsent == [] {
        assert log.attempted + Flat<byte>([]) == log.attempted;
        ProtocolWrites.SettledWritesAreTaken(history);
      }
    }
  }

  lemma TagPrefix(a: Bytes, b: Bytes)
    ensures Tag(a, 0) <= Tag(a + b, 0)
  {
  }

  method Read(native: NativePort, port: BindingPort, loop: ReactorLoop) returns (account: Account)
    requires port.native == loop.native == native && port.Valid() && loop.Valid()
    ensures Balanced(account) && account.accepted == native.accepted
  {
    hide Run, Balanced;
    BooksBalance(native.history);
    account := Account(
      port.isOpen, native.receiverOpen, port.streaming, port.readBytes, port.readSlots, loop.bytes, loop.slots,
      native.channel, native.callbacks, port.received, loop.produced, native.submitted, native.accepted);
  }
}
