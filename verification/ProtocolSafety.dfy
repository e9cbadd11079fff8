/** Every action keeps the invariants. */
module ProtocolSafety {
  import opened Common
  import opened Protocol
  import opened ProtocolInvariant

  // ---- Queues -------------------------------------------------------------------------------

  lemma CommandSnoc(cs: seq<Command>, c: Command)
    ensures OrderedIds(cs + [c]) == OrderedIds(cs) + OrderedId(c)
    ensures ReadCommandIds(cs + [c]) == ReadCommandIds(cs) + ReadId(c)
    ensures Cells(cs + [c]) == Cells(cs) + CellsOf(c)
    ensures CreditBytes(cs + [c]) == CreditBytes(cs) + (if c.Credit? then c.bytes else 0)
    ensures CreditSlots(cs + [c]) == CreditSlots(cs) + (if c.Credit? then c.slots else 0)
  {
    CollectSnoc(OrderedId, cs, c);
    CollectSnoc(ReadId, cs, c);
    CollectSnoc(CellsOf, cs, c);
    CreditSnoc(cs, c);
  }

  lemma CommandPop(cs: seq<Command>)
    requires cs != []
    ensures OrderedIds(cs) == OrderedId(cs[0]) + OrderedIds(cs[1..])
    ensures ReadCommandIds(cs) == ReadId(cs[0]) + ReadCommandIds(cs[1..])
    ensures Cells(cs) == CellsOf(cs[0]) + Cells(cs[1..])
    ensures CreditBytes(cs) == (if cs[0].Credit? then cs[0].bytes else 0) + CreditBytes(cs[1..])
    ensures CreditSlots(cs) == (if cs[0].Credit? then cs[0].slots else 0) + CreditSlots(cs[1..])
    ensures NoCredits(cs) ==> !cs[0].Credit? && NoCredits(cs[1..])
    ensures PositiveCredits(cs) ==> PositiveCredits(cs[1..])
  {
    assert forall c :: c in cs[1..] ==> c in cs;
    assert cs[0] in cs;
  }

  lemma EventSnoc(es: seq<Event>, e: Event)
    ensures DoneIds(es + [e]) == DoneIds(es) + DoneId(e)
    ensures ReadEventIds(es + [e]) == ReadEventIds(es) + ReadEventId(e)
    ensures EventChunks(es + [e]) == EventChunks(es) + ChunksOf(e)
    ensures NoData(es) && !e.Data? ==> NoData(es + [e])
    ensures NoEmptyItem(es) && (e.Data? ==> Chunks(e.item) != []) ==> NoEmptyItem(es + [e])
  {
    CollectSnoc(DoneId, es, e);
    CollectSnoc(ReadEventId, es, e);
    CollectSnoc(ChunksOf, es, e);
  }

  lemma EventPop(es: seq<Event>)
    requires es != []
    ensures DoneIds(es) == DoneId(es[0]) + DoneIds(es[1..])
    ensures ReadEventIds(es) == ReadEventId(es[0]) + ReadEventIds(es[1..])
    ensures EventChunks(es) == ChunksOf(es[0]) + EventChunks(es[1..])
    ensures NoData(es) ==> !es[0].Data? && NoData(es[1..])
    ensures NoEmptyItem(es) ==> NoEmptyItem(es[1..]) && (es[0].Data? ==> Chunks(es[0].item) != [])
  {
    assert forall e :: e in es[1..] ==> e in es;
    assert es[0] in es;
  }

  // ---- Life cycle -----------------------------------------------------------------------------

  lemma LifeFacts(s: State)
    requires InvLife(s)
    ensures s.js.finished ==> s.rx.phase.Gone? && s.callbacks == []
    ensures s.stop && ReceiverOpen(s.rx.phase) ==> s.js.closing
    ensures s.rx.phase.Released? || s.rx.phase.Gone? ==> s.stop
    ensures s.js.isOpen ==> !s.rx.phase.Opening?
  {
  }

  lemma LifePush(isOpen: bool, closing: bool, finished: bool, stop: bool, stage: Stage, next: Stage,
                 callbacks: seq<Event>, e: Event)
    requires Life(isOpen, closing, finished, stop, stage, callbacks)
    requires stage.Running? && (next.Running? || next.Leaving?) && !e.Opened? && !e.Closed?
    ensures Life(isOpen, closing, finished, stop, next, callbacks + [e])
  {
  }

  lemma LifeLeave(isOpen: bool, closing: bool, finished: bool, stop: bool, stage: Stage, callbacks: seq<Event>)
    requires Life(isOpen, closing, finished, stop, stage, callbacks)
    requires stage.Running? || stage.Starting?
    ensures Life(isOpen, closing, finished, stop, Leaving, callbacks)
  {
  }

  lemma LifePop(isOpen: bool, closing: bool, finished: bool, stop: bool, stage: Stage, callbacks: seq<Event>)
    requires Life(isOpen, closing, finished, stop, stage, callbacks) && callbacks != [] && !callbacks[0].Closed?
    ensures Life(isOpen, closing, finished, stop, stage, callbacks[1..])
    ensures callbacks[0].Opened? ==> Life(true, closing, finished, stop, stage, callbacks[1..])
    ensures !finished
  {
    assert forall i :: 0 <= i < |callbacks| - 1 ==> callbacks[1..][i] == callbacks[i + 1];
    assert forall e :: e in callbacks[1..] ==> exists i :: 0 < i < |callbacks| && callbacks[i] == e;
  }

  lemma LifeFinish(isOpen: bool, closing: bool, finished: bool, stop: bool, stage: Stage, callbacks: seq<Event>)
    requires Life(isOpen, closing, finished, stop, stage, callbacks) && callbacks != [] && callbacks[0].Closed?
    ensures Life(isOpen, closing, true, stop, stage, callbacks[1..])
    ensures callbacks[1..] == [] && stage.Over?
  {
    assert callbacks[0] in callbacks;
  }

  // ---- Requests -------------------------------------------------------------------------------

  lemma KeysAdd(pending: map<nat, bool>, id: nat, ordered: bool)
    requires id !in pending
    ensures multiset(Keys(pending[id := ordered], ordered)) == multiset(Keys(pending, ordered)) + multiset{id}
    ensures Keys(pending[id := ordered], !ordered) == Keys(pending, !ordered)
    ensures |pending[id := ordered]| == |pending| + 1
  {
    assert Keys(pending[id := ordered], ordered) == Keys(pending, ordered) + {id};
    assert pending[id := ordered].Keys == pending.Keys + {id};
  }

  lemma KeysRemove(pending: map<nat, bool>, id: nat, ordered: bool, ids: seq<nat>)
    requires multiset([id] + ids) == multiset(Keys(pending, ordered))
    ensures id in pending && pending[id] == ordered
    ensures multiset(ids) == multiset(Keys(pending - {id}, ordered))
    ensures Keys(pending - {id}, !ordered) == Keys(pending, !ordered)
    ensures |pending - {id}| <= |pending|
  {
    assert id in multiset([id] + ids);
    assert id in Keys(pending, ordered);
    var left := Keys(pending - {id}, ordered);
    assert Keys(pending, ordered) == left + {id};
    assert multiset([id] + ids) == multiset{id} + multiset(ids);
    assert multiset(left + {id}) == multiset{id} + multiset(left);
    assert multiset(ids) == (multiset{id} + multiset(ids)) - multiset{id};
    assert multiset(left) == (multiset{id} + multiset(left)) - multiset{id};
    assert (pending - {id}).Keys == pending.Keys - {id};
  }

  lemma RequestsQueue(pending: map<nat, bool>, ordered: int, outstanding: seq<nat>, readIds: seq<nat>,
                      settled: seq<nat>, queued: seq<nat>, id: nat)
    requires Requests(false, pending, ordered, true, outstanding, readIds, settled, queued)
    requires id !in pending && |pending| < MAX_PENDING_OPS
    ensures Requests(false, pending[id := true], ordered, false, outstanding + [id], readIds, settled, queued + [id])
  {
    KeysAdd(pending, id, true);
    assert multiset(outstanding + [id]) == multiset(outstanding) + multiset{id};
    assert settled + (outstanding + [id]) == (settled + outstanding) + [id];
  }

  lemma RequestsQueueRead(pending: map<nat, bool>, ordered: int, outstanding: seq<nat>, readIds: seq<nat>,
                          settled: seq<nat>, queued: seq<nat>, id: nat)
    requires Requests(false, pending, ordered, false, outstanding, readIds, settled, queued)
    requires id !in pending && |pending| < MAX_PENDING_OPS
    ensures Requests(false, pending[id := false], ordered, false, outstanding, readIds + [id], settled, queued)
  {
    KeysAdd(pending, id, false);
    assert multiset(readIds + [id]) == multiset(readIds) + multiset{id};
  }

  lemma RequestsSettle(pending: map<nat, bool>, ordered: int, rest: seq<nat>, readIds: seq<nat>,
                       settled: seq<nat>, queued: seq<nat>, id: nat)
    requires Requests(false, pending, ordered, false, [id] + rest, readIds, settled, queued)
    ensures id in pending && pending[id]
    ensures Requests(false, pending - {id}, ordered - 1, false, rest, readIds, settled + [id], queued)
  {
    KeysRemove(pending, id, true, rest);
    assert (settled + [id]) + rest == settled + ([id] + rest);
  }

  lemma RequestsSettleRead(pending: map<nat, bool>, ordered: int, outstanding: seq<nat>, rest: seq<nat>,
                           settled: seq<nat>, queued: seq<nat>, id: nat)
    requires Requests(false, pending, ordered, false, outstanding, [id] + rest, settled, queued)
    ensures id in pending && !pending[id]
    ensures Requests(false, pending - {id}, ordered, false, outstanding, rest, settled, queued)
  {
    KeysRemove(pending, id, false, rest);
  }

  /** Taking or releasing the reservation of a submission. */
  lemma RequestsReserve(finished: bool, pending: map<nat, bool>, ordered: int, outstanding: seq<nat>,
                        readIds: seq<nat>, settled: seq<nat>, queued: seq<nat>)
    ensures Requests(finished, pending, ordered, false, outstanding, readIds, settled, queued)
            <==> Requests(finished, pending, ordered + 1, true, outstanding, readIds, settled, queued)
  {
  }

  /** An inline completion: nothing else is outstanding. */
  lemma RequestsInline(finished: bool, pending: map<nat, bool>, outstanding: seq<nat>,
                       readIds: seq<nat>, settled: seq<nat>, queued: seq<nat>, id: nat)
    requires Requests(finished, pending, 1, true, outstanding, readIds, settled, queued)
    ensures Requests(finished, pending, 0, false, outstanding, readIds, settled + [id], queued + [id])
  {
    if !finished {
      assert outstanding == [];
      assert settled + outstanding == settled;
      assert (settled + [id]) + outstanding == settled + [id];
    }
  }

  // ---- Writes ---------------------------------------------------------------------------------

  lemma WritesAttempt(attempted: Bytes, promised: seq<Cell>, gap: Option<nat>, accepted: seq<Cell>,
                      pipeline: seq<Cell>, payload: Bytes)
    requires Writes(attempted, promised, gap, accepted, pipeline, [])
    ensures var cells := Tag(payload, |attempted|);
            Writes(attempted + payload, promised + cells, gap, accepted, pipeline + cells, cells)
  {
    hide Faithful, Gapped;
    var cells := Tag(payload, |attempted|);
    assert accepted + (pipeline + cells) == (accepted + pipeline) + cells;
    FaithfulAttempt(promised, attempted, payload);
    if gap.None? {
      TagAttempt(attempted, payload);
    } else {
      GappedAttempt(promised, gap.value, attempted, payload);
    }
  }

  lemma TagAttempt(attempted: Bytes, payload: Bytes)
    ensures Tag(attempted, 0) + Tag(payload, |attempted|) == Tag(attempted + payload, 0)
  {
  }

  lemma FaithfulAttempt(promised: seq<Cell>, attempted: Bytes, payload: Bytes)
    requires Faithful(promised, attempted)
    ensures Faithful(promised + Tag(payload, |attempted|), attempted + payload)
  {
  }

  lemma GappedAttempt(promised: seq<Cell>, gap: nat, attempted: Bytes, payload: Bytes)
    requires Faithful(promised, attempted) && Gapped(promised, gap) && gap < |attempted|
    ensures Gapped(promised + Tag(payload, |attempted|), gap)
  {
    if |promised| > gap { assert promised[|promised| - 1].at < |attempted|; }
  }

  lemma WritesAccept(attempted: Bytes, promised: seq<Cell>, gap: Option<nat>, accepted: seq<Cell>,
                     taken: seq<Cell>, rest: seq<Cell>, inCall: seq<Cell>, count: nat)
    requires Writes(attempted, promised, gap, accepted, taken + rest, inCall) && count <= |inCall|
    ensures Writes(attempted, promised, gap, accepted + taken, rest, inCall[count..])
  {
    assert (accepted + taken) + rest == accepted + (taken + rest);
  }

  lemma WritesReject(attempted: Bytes, promised: seq<Cell>, gap: Option<nat>, accepted: seq<Cell>,
                     pipeline: seq<Cell>, data: seq<Cell>)
    requires Writes(attempted, promised, gap, accepted, pipeline + data, data) && data != []
    ensures |data| <= |promised|
    ensures var kept := |promised| - |data|;
            Writes(attempted, promised[..kept], if gap.Some? then gap else Some(kept), accepted, pipeline, [])
  {
    hide Faithful, Gapped, Tag;
    var kept := |promised| - |data|;
    assert promised == (accepted + pipeline) + data;
    assert promised[..kept] == accepted + pipeline;
    assert promised[kept..] == data;
    FaithfulKept(promised, attempted, kept);
    if gap.Some? {
      GappedKept(promised, gap.value, attempted, kept);
    } else {
      TagKept(attempted, kept);
    }
  }

  lemma FaithfulKept(promised: seq<Cell>, attempted: Bytes, kept: nat)
    requires Faithful(promised, attempted) && kept <= |promised|
    ensures Faithful(promised[..kept], attempted)
  {
  }

  lemma TagKept(attempted: Bytes, kept: nat)
    requires kept <= |attempted|
    ensures Gapped(Tag(attempted, 0)[..kept], kept) && |Tag(attempted, 0)| == |attempted|
  {
  }

  lemma GappedKept(promised: seq<Cell>, gap: nat, attempted: Bytes, kept: nat)
    requires Gapped(promised, gap) && gap < |attempted| && kept < |promised|
    requires forall i :: 0 <= i < |promised| - kept ==> promised[kept..][i].at == |attempted| - (|promised| - kept) + i
    ensures Gapped(promised[..kept], gap)
  {
    assert promised[kept..][0] == promised[kept];
    assert promised[kept..][|promised| - kept - 1] == promised[|promised| - 1];
    assert gap <= kept;
  }

  // ---- Reads ----------------------------------------------------------------------------------

  lemma ReadsProduce(lossless: bool, received: seq<Bytes>, inFlight: seq<Bytes>, produced: seq<Bytes>, data: Bytes)
    requires Reads(lossless, received, inFlight, produced)
    ensures Reads(lossless, received, inFlight + [data], produced + [data])
  {
    assert received + (inFlight + [data]) == (received + inFlight) + [data];
  }

  lemma ReadsDeliver(received: seq<Bytes>, rest: seq<Bytes>, produced: seq<Bytes>, data: Bytes)
    requires Reads(true, received, [data] + rest, produced)
    ensures Reads(true, received + [data], rest, produced)
  {
    assert (received + [data]) + rest == received + ([data] + rest);
  }

  lemma ReadsLossy(lossless: bool, received: seq<Bytes>, inFlight: seq<Bytes>, next: seq<Bytes>, produced: seq<Bytes>)
    requires Reads(lossless, received, inFlight, produced)
    ensures Reads(false, received, next, produced)
  {
  }

  // ---- JavaScript actions -----------------------------------------------------------------------

  lemma AttemptWrites(s: State, id: nat, payload: Bytes)
    requires InvWrites(s)
    ensures InvWrites(JsWrite(s, id, payload))
  {
    hide Writes, Collect, Backlog, Tag;
    if JsWrite(s, id, payload) != s {
      WritesAttempt(s.log.attempted, s.log.promised, s.log.gap, s.log.accepted, Pipeline(s), payload);
      assert Pipeline(JsWrite(s, id, payload)) == Pipeline(s) + Tag(payload, |s.log.attempted|);
    }
  }

  lemma KeepWrite(s: State, id: nat, payload: Bytes)
    requires Inv(s)
    ensures Inv(JsWrite(s, id, payload))
  {
    hide InvWrites;
    hide Life, Reactive, Requests, Writes, Reads, NoCredits, NoData, NoEmptyItem, PositiveCredits;
    hide Collect, CreditBytes, CreditSlots, Flat, Keys, Backlog, Tag;
    AttemptWrites(s, id, payload);
    RequestsReserve(s.js.finished, s.js.pending, s.js.ordered, Outstanding(s), ReadIds(s), s.log.settled, s.log.queued);
  }

  lemma KeepControl(s: State, id: nat)
    requires Inv(s)
    ensures Inv(JsControl(s, id))
  {
    hide Life, Reactive, Requests, Writes, Reads, NoCredits, NoData, NoEmptyItem, PositiveCredits;
    hide Collect, CreditBytes, CreditSlots, Flat, Keys, Backlog, Tag;
    RequestsReserve(s.js.finished, s.js.pending, s.js.ordered, Outstanding(s), ReadIds(s), s.log.settled, s.log.queued);
  }

  lemma KeepRead(s: State, id: nat, length: nat)
    requires Inv(s)
    ensures Inv(JsRead(s, id, length))
  {
    hide Life, Reactive, Requests, Writes, Reads, NoCredits, NoData, NoEmptyItem, PositiveCredits;
    hide Collect, CreditBytes, CreditSlots, Flat, Keys, Backlog, Tag;
  }

  lemma KeepStartReading(s: State, length: int)
    requires Inv(s)
    ensures Inv(JsStartReading(s, length))
  {
    hide Life, Reactive, Requests, Writes, Reads, NoCredits, NoData, NoEmptyItem, PositiveCredits;
    hide Collect, CreditBytes, CreditSlots, Flat, Keys, Backlog, Tag;
    LifeFacts(s);
    if !s.js.streaming && !s.js.reading { QuietChannel(s); }
  }

  /** The equations of `InvCredits` hold trivially before streaming starts. */
  lemma QuietChannel(s: State)
    requires InvQuiet(s) && InvExclusive(s) && !s.js.streaming && !s.js.reading && InvLife(s) && InvQueued(s)
    ensures CreditBytes(s.channel) == 0 && CreditSlots(s.channel) == 0
    ensures Upstream(s) == [] && InFlight(s) == [] && Flat(InFlight(s)) == []
  {
    NoCreditSums(s.channel);
    if !s.js.finished { NoReadChunks(s.callbacks); }
  }

  lemma {:induction false} NoCreditSums(cs: seq<Command>)
    requires NoCredits(cs)
    ensures CreditBytes(cs) == 0 && CreditSlots(cs) == 0
  {
    if cs != [] {
      CommandPop(cs);
      NoCreditSums(cs[1..]);
    }
  }

  lemma {:induction false} NoReadChunks(es: seq<Event>)
    requires NoData(es) && ReadEventIds(es) == []
    ensures EventChunks(es) == []
  {
    if es != [] {
      EventPop(es);
      NoReadChunks(es[1..]);
    }
  }

  lemma KeepLoad(s: State)
    requires Inv(s)
    ensures Inv(JsLoad(s))
  {
    hide Life, Reactive, Requests, Writes, Reads, NoCredits, NoData, NoEmptyItem, PositiveCredits;
    hide Collect, CreditBytes, CreditSlots, Flat, Keys, Backlog, Tag;
    if s.call.Checking? {
      if s.call.allowInline && s.pendingOps == 0 { return; }
      assert JsLoad(s).call.Enqueuing?;
    }
  }

  /** With no reservation outstanding the reactor has nothing to write. */
  lemma NothingBacklogged(s: State)
    requires InvReactive(s) && InvReservations(s) && s.pendingOps == 0
    ensures Backlog(s.rx.commands, s.rx.written) == [] && Cells(s.channel) == [] && s.rx.commands == []
  {
    AllOrdered(s.rx.commands);
    UnorderedCells(s.channel);
  }

  lemma {:induction false} AllOrdered(cs: seq<Command>)
    requires forall c :: c in cs ==> c.Ordered()
    ensures |OrderedIds(cs)| == |cs|
  {
    if cs != [] {
      CommandPop(cs);
      assert forall c :: c in cs[1..] ==> c in cs;
      assert cs[0] in cs;
      AllOrdered(cs[1..]);
    }
  }

  lemma {:induction false} UnorderedCells(cs: seq<Command>)
    requires OrderedIds(cs) == []
    ensures Cells(cs) == []
  {
    if cs != [] {
      CommandPop(cs);
      UnorderedCells(cs[1..]);
    }
  }

  lemma TryWriteWrites(s: State, count: Option<nat>)
    requires InvWrites(s) && InvReactive(s) && InvReservations(s)
    ensures InvWrites(JsTryWrite(s, count))
  {
    hide Writes, Collect, Backlog, Reactive;
    if s.call.Trying? && count.Some? && count.value <= |s.call.data| {
      var data := s.call.data;
      var taken, rest := data[..count.value], data[count.value..];
      assert data == taken + rest;
      TryWritePipeline(s, rest);
      WritesAccept(s.log.attempted, s.log.promised, s.log.gap, s.log.accepted, taken, rest, data, count.value);
    }
  }

  /** During an inline attempt the call holds all that is on its way. */
  lemma TryWritePipeline(s: State, rest: seq<Cell>)
    requires InvReactive(s) && InvReservations(s) && s.call.Trying?
    ensures Pipeline(s) == s.call.data
    ensures Pipeline(s.(call := Enqueuing(Write(s.call.id, rest)))) == rest
    ensures Pipeline(s.(call := NoCall)) == []
  {
    hide Collect, Backlog, Reactive;
    NothingBacklogged(s);
  }

  lemma TryWriteRequests(s: State, count: Option<nat>)
    requires InvRequests(s)
    ensures InvRequests(JsTryWrite(s, count))
  {
    hide Requests, Collect, Outstanding, ReadIds, Tag;
    TryWritePlaces(s, count);
    if s.call.Trying? {
      if JsTryWrite(s, count).call == NoCall {
        RequestsInline(s.js.finished, s.js.pending, Outstanding(s), ReadIds(s), s.log.settled, s.log.queued, s.call.id);
      } else {
        assert JsTryWrite(s, count).call.Enqueuing?;
      }
    }
  }

  lemma KeepTryWrite(s: State, count: Option<nat>)
    requires Inv(s)
    ensures Inv(JsTryWrite(s, count))
  {
    hide InvWrites, InvRequests, InvReads, InvQueued, InvCredits, InvQuiet, InvExclusive;
    hide Life, Reactive, Collect, Outstanding, ReadIds, Upstream, InFlight;
    TryWriteWrites(s, count);
    TryWriteRequests(s, count);
    TryWritePlaces(s, count);
    KeepTryWriteReads(s, count);
  }

  lemma KeepTryWriteReads(s: State, count: Option<nat>)
    requires Inv(s)
    ensures var t := JsTryWrite(s, count);
            InvReads(t) && InvQueued(t) && InvCredits(t) && InvQuiet(t) && InvExclusive(t)
  {
    hide JsTryWrite, InvWrites, InvRequests, InvLife, InvReactive, InvReservations;
    hide Reads, NoCredits, NoData, NoEmptyItem, PositiveCredits;
    hide Collect, CreditBytes, CreditSlots, Flat, Outstanding, ReadIds, Upstream, InFlight;
    TryWritePlaces(s, count);
    TryWriteTouches(s, count);
    TryWriteGoesOn(s, count);
  }

  lemma TryWriteTouches(s: State, count: Option<nat>)
    ensures var t := JsTryWrite(s, count);
            && t == s.(js := t.js, call := t.call, log := t.log)
            && t.js == s.js.(ordered := t.js.ordered)
            && t.log.received == s.log.received && t.log.produced == s.log.produced
  {
    hide Tag;
    var t := JsTryWrite(s, count);
    if t.call == NoCall {
      assert t.js == s.js.(ordered := t.js.ordered);
    } else {
      assert t.js == s.js;
    }
  }

  lemma TryWriteGoesOn(s: State, count: Option<nat>)
    ensures var call := JsTryWrite(s, count).call;
            call == s.call || call == NoCall || (call.Enqueuing? && call.command.Write?)
  {
  }

  /** An inline attempt moves no request and no chunk. */
  lemma TryWritePlaces(s: State, count: Option<nat>)
    ensures var t := JsTryWrite(s, count);
            && Outstanding(t) == Outstanding(s) && ReadIds(t) == ReadIds(s)
            && Upstream(t) == Upstream(s) && InFlight(t) == InFlight(s)
  {
    hide Collect, Tag;
  }

  lemma RejectWrites(s: State)
    requires InvWrites(s) && s.call.Enqueuing?
    requires CellsOf(s.call.command) != [] ==> !ReceiverOpen(s.rx.phase)
    ensures InvWrites(Reject(s, s.call.command))
  {
    hide Writes, Collect, Backlog;
    var data := CellsOf(s.call.command);
    var pipeline := Backlog(s.rx.commands, s.rx.written) + Cells(s.channel);
    assert Pipeline(s) == pipeline + data;
    assert Pipeline(s.(call := NoCall)) == pipeline;
    if data != [] {
      WritesReject(s.log.attempted, s.log.promised, s.log.gap, s.log.accepted, pipeline, data);
    } else {
      assert pipeline + data == pipeline;
    }
  }

  lemma KeepReject(s: State)
    requires Inv(s) && s.call.Enqueuing?
    requires CellsOf(s.call.command) != [] ==> !ReceiverOpen(s.rx.phase)
    ensures Inv(Reject(s, s.call.command))
  {
    hide InvWrites;
    hide Life, Reactive, Requests, Writes, Reads, NoCredits, NoData, NoEmptyItem, PositiveCredits;
    hide Collect, CreditBytes, CreditSlots, Flat, Keys, Backlog, Tag;
    RejectWrites(s);
    RequestsReserve(s.js.finished, s.js.pending, s.js.ordered - 1, Outstanding(s), ReadIds(s), s.log.settled, s.log.queued);
  }

  lemma KeepEnqueue(s: State)
    requires Inv(s)
    ensures Inv(JsEnqueue(s))
  {
    hide Life, Reactive, Requests, Writes, Reads, NoCredits, NoData, NoEmptyItem, PositiveCredits;
    hide Collect, CreditBytes, CreditSlots, Flat, Keys, Backlog, Tag;
    LifeFacts(s);
    if s.call.Enqueuing? {
      if s.stop {
        KeepReject(s);
      } else if s.call.command.Ordered() {
        AdmissionSucceeds(s);
        KeepReserve(s);
      }
    }
  }

  /** The reservation of an admitted operation. */
  lemma KeepReserve(s: State)
    requires Inv(s) && s.call.Enqueuing? && s.call.command.Ordered()
    ensures Inv(s.(pendingOps := s.pendingOps + 1, call := Sending(s.call.command)))
  {
    hide Life, Reactive, Requests, Writes, Reads, NoCredits, NoData, NoEmptyItem, PositiveCredits;
    hide Collect, CreditBytes, CreditSlots, Flat, Keys, Backlog, Tag;
  }

  /** The reservation never finds 64 ordered commands already pending. */
  lemma AdmissionSucceeds(s: State)
    requires Inv(s) && s.call.Enqueuing? && s.call.command.Ordered() && !s.stop
    ensures s.pendingOps < MAX_PENDING_OPS
  {
    LifeFacts(s);
    RequestBound(s);
  }

  lemma UpstreamWithin(s: State)
    ensures |Upstream(s)| <= |InFlight(s)| && |Flat(Upstream(s))| <= |Flat(InFlight(s))|
  {
    FlatAppend(Undelivered(s.delivery) + FifoChunks(Fifo(s.js)), Upstream(s));
  }

  /** `try_send` never finds the 96-slot channel full. */
  lemma ChannelHasRoom(s: State)
    requires Inv(s) && s.call.Sending? && ReceiverOpen(s.rx.phase)
    ensures |s.channel| < CHANNEL_CAPACITY
  {
    LifeFacts(s);
    CountChannel(s.channel);
    RequestBound(s);
    if !s.js.streaming { NoCreditSums(s.channel); }
    assert |OrderedIds(s.channel)| <= |Outstanding(s)|;
    assert |ReadCommandIds(s.channel)| <= |ReadIds(s)|;
  }

  lemma SendWrites(s: State)
    requires InvWrites(s) && s.call.Sending?
    ensures InvWrites(s.(channel := s.channel + [s.call.command], call := NoCall))
  {
    hide Writes, Collect, Backlog;
    var data := CellsOf(s.call.command);
    CommandSnoc(s.channel, s.call.command);
    var pipeline := Pipeline(s);
    assert Pipeline(s.(channel := s.channel + [s.call.command], call := NoCall)) == pipeline;
    assert [] + pipeline == pipeline && s.log.accepted + [] == s.log.accepted && data[|data|..] == [];
    WritesAccept(s.log.attempted, s.log.promised, s.log.gap, s.log.accepted, [], pipeline, data, |data|);
  }

  lemma KeepSendCredit(s: State)
    requires Inv(s) && s.call.Sending? && s.call.command.Credit? && ReceiverOpen(s.rx.phase)
    requires |s.channel| < CHANNEL_CAPACITY
    ensures Inv(JsSend(s))
  {
    hide Life, Reactive, Requests, Writes, Reads, NoCredits, NoData, NoEmptyItem, PositiveCredits;
    hide Collect, CreditBytes, CreditSlots, Flat, Keys, Backlog, Tag;
    SendWrites(s);
    CommandSnoc(s.channel, s.call.command);
    PositiveSnoc(s.channel, s.call.command);
    UpstreamWithin(s);
    assert OrderedIds(s.channel + [s.call.command]) == OrderedIds(s.channel);
    assert ReadCommandIds(s.channel + [s.call.command]) == ReadCommandIds(s.channel);
  }

  lemma PositiveSnoc(cs: seq<Command>, c: Command)
    requires PositiveCredits(cs) && (c.Credit? ==> c.bytes >= 1 && c.slots >= 1)
    ensures PositiveCredits(cs + [c])
    ensures NoCredits(cs) && !c.Credit? ==> NoCredits(cs + [c])
  {
  }

  /** A queued command holds the youngest request. */
  lemma PushIds(s: State)
    requires s.call.Sending?
    ensures var t := s.(channel := s.channel + [s.call.command], call := NoCall);
            && Outstanding(t) == Outstanding(s) + OrderedId(s.call.command)
            && ReadIds(t) == ReadIds(s) + ReadId(s.call.command)
  {
    hide Collect;
    CommandSnoc(s.channel, s.call.command);
  }

  lemma SendQueues(s: State)
    requires InvRequests(s) && s.call.Sending? && !s.call.command.Credit? && !s.js.finished
    requires ReceiverOpen(s.rx.phase) && |s.channel| < CHANNEL_CAPACITY
    ensures InvRequests(JsSend(s))
  {
    hide Requests, Collect, Outstanding, ReadIds;
    var c := s.call.command;
    PushIds(s);
    RequestsSize(s.js.pending, c.id);
    var t := s.(channel := s.channel + [c], call := NoCall);
    if c.Ordered() {
      assert ReadIds(s) + [] == ReadIds(s);
      RequestsQueue(s.js.pending, s.js.ordered, Outstanding(s), ReadIds(s), s.log.settled, s.log.queued, c.id);
    } else {
      assert Outstanding(s) + [] == Outstanding(s);
      RequestsQueueRead(s.js.pending, s.js.ordered, Outstanding(s), ReadIds(s), s.log.settled, s.log.queued, c.id);
    }
    SettleKeepsPlaces(t, JsSend(s).js, JsSend(s).log);
  }

  lemma KeepSendRequest(s: State)
    requires Inv(s) && s.call.Sending? && !s.call.command.Credit? && ReceiverOpen(s.rx.phase)
    requires |s.channel| < CHANNEL_CAPACITY
    ensures Inv(JsSend(s))
  {
    hide InvRequests;
    hide Life, Reactive, Requests, Writes, Reads, NoCredits, NoData, NoEmptyItem, PositiveCredits;
    hide Collect, CreditBytes, CreditSlots, Flat, Keys, Backlog, Tag;
    var c := s.call.command;
    LifeFacts(s);
    SendQueues(s);
    SendWrites(s);
    CommandSnoc(s.channel, c);
    PositiveSnoc(s.channel, c);
    if c.Ordered() {
      assert JsSend(s).js.reading == s.js.reading;
    } else {
      assert ReadIds(JsSend(s)) == ReadIds(s) + [c.id];
    }
  }

  lemma RequestsSize(pending: map<nat, bool>, id: nat)
    requires id !in pending
    ensures |pending[id := true]| == |pending| + 1 && |pending[id := false]| == |pending| + 1
  {
    KeysAdd(pending, id, true);
    KeysAdd(pending, id, false);
  }

  lemma KeepRollback(s: State)
    requires Inv(s) && s.call.Sending?
    ensures var c := s.call.command;
            Inv(s.(pendingOps := if c.Ordered() then s.pendingOps - 1 else s.pendingOps, call := Enqueuing(c)))
  {
    hide Life, Reactive, Requests, Writes, Reads, NoCredits, NoData, NoEmptyItem, PositiveCredits;
    hide Collect, CreditBytes, CreditSlots, Flat, Keys, Backlog, Tag;
  }

  lemma KeepSend(s: State)
    requires Inv(s)
    ensures Inv(JsSend(s))
  {
    hide Inv, Reject;
    if s.call.Sending? {
      var c := s.call.command;
      if ReceiverOpen(s.rx.phase) {
        ChannelHasRoom(s);
        if c.Credit? { KeepSendCredit(s); } else { KeepSendRequest(s); }
      } else {
        KeepRollback(s);
        var back := s.(pendingOps := if c.Ordered() then s.pendingOps - 1 else s.pendingOps, call := Enqueuing(c));
        KeepReject(back);
        RejectForgetsCall(back, s.call);
      }
    }
  }

  lemma RejectForgetsCall(s: State, call: Call)
    requires s.call.Enqueuing?
    ensures Reject(s, s.call.command) == Reject(s.(call := call), s.call.command)
  {
  }

  // ---- Delivery -----------------------------------------------------------------------------------

  lemma KeepDeliver(s: State, t: State, events: seq<Bytes>, index: nat)
    requires Inv(s) && EventLoop(t) && s.call == NoCall && index <= |events|
    requires t == s.(js := t.js, delivery := Idle)
    requires t.js == s.js.(pendingRead := t.js.pendingRead, queuedReads := t.js.queuedReads, microtasks := t.js.microtasks)
    requires t.js.microtasks == |Fifo(t.js)| && (t.js.pendingRead.None? ==> t.js.queuedReads == [])
    requires Undelivered(s.delivery) + FifoChunks(Fifo(s.js)) == events[index..] + FifoChunks(Fifo(t.js))
    requires s.js.streaming
    ensures Inv(Deliver(t, events, index))
  {
    hide InvReads, InvCredits;
    hide Life, Reactive, Requests, Writes, NoCredits, NoData, NoEmptyItem, Collect, Keys, Backlog, Tag;
    DeliverCounts(s, t, events, index);
  }

  lemma DeliverCounts(s: State, t: State, events: seq<Bytes>, index: nat)
    requires Inv(s) && s.call == NoCall && index <= |events| && s.js.streaming
    requires t == s.(js := t.js, delivery := Idle)
    requires t.js == s.js.(pendingRead := t.js.pendingRead, queuedReads := t.js.queuedReads, microtasks := t.js.microtasks)
    requires Undelivered(s.delivery) + FifoChunks(Fifo(s.js)) == events[index..] + FifoChunks(Fifo(t.js))
    ensures InvReads(Deliver(t, events, index)) && InvCredits(Deliver(t, events, index))
  {
    hide InvLife, InvReactive, InvExclusive, InvRequests, InvReservations, InvWrites, InvQueued, InvQuiet;
    hide Reads, PositiveCredits, Collect, CreditBytes, CreditSlots, Flat;
    var next := Deliver(t, events, index);
    if index < |events| && s.js.isOpen {
      assert events[index..] == [events[index]] + events[index + 1..];
      assert InFlight(s) == [events[index]] + InFlight(next);
      ReadsDeliver(s.log.received, InFlight(next), s.log.produced, events[index]);
      FlatAppend([events[index]], InFlight(next));
      FlatOne(events[index]);
      assert Upstream(next) == Upstream(s);
    } else {
      ReadsLossy(s.js.isOpen || !s.js.streaming, s.log.received, InFlight(s), InFlight(next), s.log.produced);
      assert s.js.isOpen ==> InFlight(next) == InFlight(s);
      assert Upstream(next) == Upstream(s);
    }
  }

  lemma FifoPop(js: Binding)
    requires js.pendingRead.Some? && js.microtasks > 0
    ensures Fifo(js) == [js.pendingRead.value] + Fifo(TakeRead(js))
    ensures FifoChunks(Fifo(js)) == Chunks(js.pendingRead.value) + FifoChunks(Fifo(TakeRead(js)))
  {
    var rest := Fifo(TakeRead(js));
    assert Fifo(js) == [js.pendingRead.value] + rest;
    assert ([js.pendingRead.value] + rest)[1..] == rest;
  }

  lemma KeepMicrotask(s: State)
    requires Inv(s)
    ensures Inv(JsMicrotask(s))
  {
    hide Inv, Collect;
    if EventLoop(s) && s.js.microtasks > 0 {
      FifoBusy(s);
      FifoPop(s.js);
      var events := Chunks(s.js.pendingRead.value);
      assert events[0..] == events;
      KeepDeliver(s, s.(js := TakeRead(s.js)), events, 0);
    }
  }

  lemma FifoBusy(s: State)
    requires Inv(s) && s.js.microtasks > 0
    ensures s.js.pendingRead.Some? && s.js.streaming && s.js.microtasks == |Fifo(s.js)|
  {
  }

  lemma ListeningFacts(s: State)
    requires Inv(s) && s.delivery.Listening?
    ensures s.js.streaming && s.delivery.index <= |s.delivery.events|
    ensures s.js.microtasks == |Fifo(s.js)| && (s.js.pendingRead.None? ==> s.js.queuedReads == [])
  {
  }

  lemma KeepListenerReturns(s: State)
    requires Inv(s)
    ensures Inv(JsListenerReturns(s))
  {
    hide Inv, Collect;
    if s.call == NoCall && s.delivery.Listening? {
      ListeningFacts(s);
      KeepDeliver(s, s.(delivery := Idle), s.delivery.events, s.delivery.index);
      DeliverIgnoresDelivery(s, s.delivery.events, s.delivery.index);
    }
  }

  lemma DeliverIgnoresDelivery(s: State, events: seq<Bytes>, index: nat)
    ensures Deliver(s, events, index) == Deliver(s.(delivery := Idle), events, index)
  {
  }

  lemma FifoPush(js: Binding, rest: seq<Bytes>)
    ensures Fifo(Retain(js, rest)) == [Batch(rest)] + Fifo(js)
    ensures FifoChunks(Fifo(Retain(js, rest))) == rest + FifoChunks(Fifo(js))
  {
    assert ([Batch(rest)] + Fifo(js))[1..] == Fifo(js);
  }

  lemma KeepListenerThrows(s: State)
    requires Inv(s)
    ensures Inv(JsListenerThrows(s))
  {
    hide Life, Reactive, Requests, Writes, Reads, NoCredits, NoData, NoEmptyItem, PositiveCredits;
    hide Collect, CreditBytes, CreditSlots, Flat, Keys, Backlog, Tag;
    if s.call == NoCall && s.delivery.Listening? {
      var next := JsListenerThrows(s);
      var rest := s.delivery.events[s.delivery.index..];
      FifoPush(s.js, rest);
      ReadsLossy(s.js.isOpen || !s.js.streaming, s.log.received, InFlight(s), InFlight(next), s.log.produced);
      assert s.js.isOpen ==> InFlight(next) == InFlight(s);
      assert Upstream(next) == Upstream(s);
    }
  }

  // ---- Callbacks ------------------------------------------------------------------------------------

  /** The oldest callback holds the oldest outstanding request. */
  lemma PopIds(s: State)
    requires s.callbacks != []
    ensures var t := s.(callbacks := s.callbacks[1..]);
            && Outstanding(s) == DoneId(s.callbacks[0]) + Outstanding(t)
            && (DoneId(s.callbacks[0]) == [] ==> Outstanding(s) == Outstanding(t))
            && ReadIds(s) == ReadEventId(s.callbacks[0]) + ReadIds(t)
            && (ReadEventId(s.callbacks[0]) == [] ==> ReadIds(s) == ReadIds(t))
  {
    hide Collect;
    EventPop(s.callbacks);
  }

  /** Settling touches only JavaScript fields. */
  lemma SettleKeepsPlaces(t: State, js: Binding, log: Log)
    ensures Outstanding(t.(js := js, log := log)) == Outstanding(t)
    ensures ReadIds(t.(js := js, log := log)) == ReadIds(t)
  {
  }

  lemma CallbackSettles(s: State)
    requires InvRequests(s) && EventLoop(s) && s.callbacks != [] && !s.js.finished
    requires s.callbacks[0].Done? || s.callbacks[0].ReadDone? || s.callbacks[0].ReadFailed?
    ensures InvRequests(JsCallback(s))
  {
    if s.callbacks[0].Done? { DoneSettles(s); } else { ReadSettles(s); }
  }

  lemma DoneSettles(s: State)
    requires InvRequests(s) && EventLoop(s) && s.callbacks != [] && !s.js.finished && s.callbacks[0].Done?
    ensures InvRequests(JsCallback(s))
  {
    hide Requests, Collect, Outstanding, ReadIds;
    PopIds(s);
    var id, t := s.callbacks[0].id, s.(callbacks := s.callbacks[1..]);
    RequestsSettle(s.js.pending, s.js.ordered, Outstanding(t), ReadIds(t), s.log.settled, s.log.queued, id);
    SettleKeepsPlaces(t, JsCallback(s).js, JsCallback(s).log);
  }

  lemma ReadSettles(s: State)
    requires InvRequests(s) && EventLoop(s) && s.callbacks != [] && !s.js.finished
    requires s.callbacks[0].ReadDone? || s.callbacks[0].ReadFailed?
    ensures InvRequests(JsCallback(s))
  {
    hide Requests, Collect, Outstanding, ReadIds;
    PopIds(s);
    var id, t := s.callbacks[0].id, s.(callbacks := s.callbacks[1..]);
    RequestsSettleRead(s.js.pending, s.js.ordered, Outstanding(t), ReadIds(t), s.log.settled, s.log.queued, id);
    SettleKeepsPlaces(t, JsCallback(s).js, JsCallback(s).log);
  }

  lemma RequestsFinished(settled: seq<nat>, queued: seq<nat>, outstanding: seq<nat>, readIds: seq<nat>)
    ensures Requests(true, map[], 0, false, outstanding, readIds, settled, queued)
  {
  }

  /** Popping a callback that carries no stream data. */
  lemma PopQuietly(s: State)
    requires InvReads(s) && EventLoop(s) && s.callbacks != [] && ChunksOf(s.callbacks[0]) == []
    ensures InFlight(s.(callbacks := s.callbacks[1..])) == InFlight(s)
    ensures Upstream(s.(callbacks := s.callbacks[1..])) == Upstream(s)
  {
    hide Collect;
    EventPop(s.callbacks);
  }

  lemma KeepCallbackSettle(s: State)
    requires Inv(s) && EventLoop(s) && s.callbacks != []
    requires s.callbacks[0].Done? || s.callbacks[0].ReadFailed?
    ensures Inv(JsCallback(s))
  {
    hide InvReactive, InvExclusive, InvRequests, InvReservations, InvWrites, InvReads, InvQueued, InvCredits, InvQuiet;
    hide Life;
    LifePop(s.js.isOpen, s.js.closing, s.js.finished, s.stop, StageOf(s.rx.phase), s.callbacks);
    CallbackSettles(s);
    SettleReads(s);
    SettleRest(s);
  }

  lemma SettleRest(s: State)
    requires Inv(s) && EventLoop(s) && s.callbacks != []
    requires s.callbacks[0].Done? || s.callbacks[0].ReadFailed?
    ensures var t := JsCallback(s); InvReactive(t) && InvExclusive(t) && InvReservations(t) && InvWrites(t)
  {
    hide InvLife, InvRequests, InvReads, InvQueued, InvCredits, InvQuiet;
    hide Reactive, Writes, Collect, Pipeline, ReadIds;
    PopIds(s);
    var t, popped := JsCallback(s), s.(callbacks := s.callbacks[1..]);
    assert ReadIds(t) == ReadIds(popped) by { SettleKeepsPlaces(popped, t.js, t.log); }
    assert Pipeline(t) == Pipeline(s) by { SettleKeepsPipeline(s); }
  }

  lemma SettleKeepsPipeline(s: State)
    requires EventLoop(s) && s.callbacks != [] && (s.callbacks[0].Done? || s.callbacks[0].ReadFailed?)
    ensures Pipeline(JsCallback(s)) == Pipeline(s)
  {
    hide Collect;
  }

  /** Settling a request that carries no data moves no chunk. */
  lemma SettleReads(s: State)
    requires Inv(s) && EventLoop(s) && s.callbacks != []
    requires s.callbacks[0].Done? || s.callbacks[0].ReadFailed?
    ensures var t := JsCallback(s); InvReads(t) && InvQueued(t) && InvCredits(t) && InvQuiet(t)
  {
    hide InvLife, InvReactive, InvExclusive, InvRequests, InvReservations, InvWrites;
    hide Reads, NoCredits, NoData, NoEmptyItem, PositiveCredits, Collect, CreditBytes, CreditSlots, Flat, Upstream, InFlight;
    EventPop(s.callbacks);
    PopQuietly(s);
    SettleMovesNothing(s);
  }

  lemma SettleMovesNothing(s: State)
    requires EventLoop(s) && s.callbacks != [] && (s.callbacks[0].Done? || s.callbacks[0].ReadFailed?)
    ensures var t, popped := JsCallback(s), s.(callbacks := s.callbacks[1..]);
            InFlight(t) == InFlight(popped) && Upstream(t) == Upstream(popped)
  {
    hide Collect;
  }

  lemma KeepCallbackReadDone(s: State)
    requires Inv(s) && EventLoop(s) && s.callbacks != [] && s.callbacks[0].ReadDone?
    ensures Inv(JsCallback(s))
  {
    hide InvRequests;
    hide Life, Reactive, Requests, Writes, Reads, NoCredits, NoData, NoEmptyItem, PositiveCredits;
    hide Collect, CreditBytes, CreditSlots, Flat, Keys, Backlog, Tag;
    LifePop(s.js.isOpen, s.js.closing, s.js.finished, s.stop, StageOf(s.rx.phase), s.callbacks);
    CallbackSettles(s);
    EventPop(s.callbacks);
    assert !s.js.streaming;
    var data := s.callbacks[0].data;
    var t := s.(callbacks := s.callbacks[1..]);
    assert FifoChunks(Fifo(s.js)) == [] by { FifoEmpty(s.js); }
    assert InFlight(s) == [data] + InFlight(t);
    ReadsDeliver(s.log.received, InFlight(t), s.log.produced, data);
  }

  lemma FifoEmpty(js: Binding)
    requires js.pendingRead.None? && js.queuedReads == []
    ensures Fifo(js) == [] && FifoChunks(Fifo(js)) == []
  {
  }

  lemma FifoSnoc(js: Binding, item: Item)
    requires js.pendingRead.None? ==> js.queuedReads == []
    ensures Fifo(OnRead(js, item)) == Fifo(js) + [item]
    ensures FifoChunks(Fifo(OnRead(js, item))) == FifoChunks(Fifo(js)) + Chunks(item)
  {
    assert Fifo(OnRead(js, item)) == Fifo(js) + [item];
    CollectSnoc(Chunks, Fifo(js), item);
  }

  lemma DataMoves(s: State)
    requires InvQueued(s) && EventLoop(s) && s.callbacks != [] && s.callbacks[0].Data?
    ensures InFlight(JsCallback(s)) == InFlight(s)
    ensures |Upstream(JsCallback(s))| <= |Upstream(s)| && |Flat(Upstream(JsCallback(s)))| <= |Flat(Upstream(s))|
    ensures InvQueued(JsCallback(s))
  {
    hide Collect, NoEmptyItem;
    EventPop(s.callbacks);
    var item, next := s.callbacks[0].item, JsCallback(s);
    FifoSnoc(s.js, item);
    assert Upstream(s) == Chunks(item) + Upstream(next);
    FlatAppend(Chunks(item), Upstream(next));
  }

  lemma KeepCallbackData(s: State)
    requires Inv(s) && EventLoop(s) && s.callbacks != [] && s.callbacks[0].Data?
    ensures Inv(JsCallback(s))
  {
    hide InvQueued, InFlight, Upstream;
    hide Life, Reactive, Requests, Writes, Reads, NoCredits, NoData, NoEmptyItem, PositiveCredits;
    hide Collect, CreditBytes, CreditSlots, Flat, Keys, Backlog, Tag;
    LifePop(s.js.isOpen, s.js.closing, s.js.finished, s.stop, StageOf(s.rx.phase), s.callbacks);
    PopIds(s);
    EventPop(s.callbacks);
    DataMoves(s);
  }

  lemma KeepOpened(s: State)
    requires Inv(s) && EventLoop(s) && s.callbacks != [] && s.callbacks[0].Opened?
    ensures Inv(JsCallback(s))
  {
    hide Life, Reactive, Requests, Writes, Reads, NoCredits, NoData, NoEmptyItem, PositiveCredits;
    hide Collect, CreditBytes, CreditSlots, Flat, Keys, Backlog, Tag;
    LifePop(s.js.isOpen, s.js.closing, s.js.finished, s.stop, StageOf(s.rx.phase), s.callbacks);
    PopIds(s);
    EventPop(s.callbacks);
    PopQuietly(s);
    assert InFlight(JsCallback(s)) == InFlight(s) && Upstream(JsCallback(s)) == Upstream(s);
  }

  lemma KeepClosed(s: State)
    requires Inv(s) && EventLoop(s) && s.callbacks != [] && s.callbacks[0].Closed?
    ensures Inv(JsCallback(s))
  {
    hide Life, Reactive, Requests, Writes, Reads, NoCredits, NoData, NoEmptyItem, PositiveCredits;
    hide Collect, CreditBytes, CreditSlots, Flat, Keys, Backlog, Tag;
    hide InvRequests;
    LifeFacts(s);
    LifeFinish(s.js.isOpen, s.js.closing, s.js.finished, s.stop, StageOf(s.rx.phase), s.callbacks);
    var next := JsCallback(s);
    ClosedRequests(s);
    EventPop(s.callbacks);
    PopQuietly(s);
    assert InFlight(next) == InFlight(s) && Upstream(next) == Upstream(s);
  }

  lemma ClosedRequests(s: State)
    requires InvRequests(s) && EventLoop(s) && s.callbacks != [] && s.callbacks[0].Closed? && !s.js.finished
    ensures InvRequests(JsCallback(s))
  {
    hide Requests, Outstanding, ReadIds;
    var next := JsCallback(s);
    RequestsFinished(s.log.settled, s.log.queued, Outstanding(next), ReadIds(next));
  }

  lemma KeepCallback(s: State)
    requires Inv(s)
    ensures Inv(JsCallback(s))
  {
    hide Inv, JsCallback;
    if EventLoop(s) && s.callbacks != [] {
      match s.callbacks[0]
      case Done(_) => KeepCallbackSettle(s);
      case ReadFailed(_) => KeepCallbackSettle(s);
      case ReadDone(_, _) => KeepCallbackReadDone(s);
      case Data(_) => KeepCallbackData(s);
      case Opened => KeepOpened(s);
      case Closed => KeepClosed(s);
    } else {
      NoCallback(s);
    }
  }

  lemma NoCallback(s: State)
    requires !EventLoop(s) || s.callbacks == []
    ensures JsCallback(s) == s
  {
  }

  lemma NoReadPending(pending: map<nat, bool>, ordered: int, outstanding: seq<nat>, readIds: seq<nat>,
                      settled: seq<nat>, queued: seq<nat>)
    requires Requests(false, pending, ordered, false, outstanding, readIds, settled, queued)
    requires forall id :: id in pending ==> pending[id]
    ensures readIds == []
  {
    assert Keys(pending, false) == {};
    assert |multiset(readIds)| == 0;
  }

  lemma KeepReadSettled(s: State)
    requires Inv(s)
    ensures Inv(JsReadSettled(s))
  {
    hide Life, Reactive, Requests, Writes, Reads, NoCredits, NoData, NoEmptyItem, PositiveCredits;
    hide Collect, CreditBytes, CreditSlots, Flat, Keys, Backlog, Tag;
    if JsReadSettled(s) != s && !s.js.finished {
      NoReadPending(s.js.pending, s.js.ordered, Outstanding(s), ReadIds(s), s.log.settled, s.log.queued);
    }
  }

  lemma LifeStop(isOpen: bool, closing: bool, finished: bool, stop: bool, stage: Stage, callbacks: seq<Event>)
    requires Life(isOpen, closing, finished, stop, stage, callbacks)
    ensures Life(false, true, finished, true, stage, callbacks)
    ensures Life(isOpen, true, finished, true, stage, callbacks)
  {
  }

  lemma KeepClose(s: State)
    requires Inv(s)
    ensures Inv(JsClose(s))
  {
    hide Life, Reactive, Requests, Writes, Reads, NoCredits, NoData, NoEmptyItem, PositiveCredits;
    hide Collect, CreditBytes, CreditSlots, Flat, Keys, Backlog, Tag;
    LifeStop(s.js.isOpen, s.js.closing, s.js.finished, s.stop, StageOf(s.rx.phase), s.callbacks);
    ReadsLossy(s.js.isOpen || !s.js.streaming, s.log.received, InFlight(s), InFlight(s), s.log.produced);
  }

  lemma KeepCancelOpen(s: State)
    requires Inv(s)
    ensures Inv(JsCancelOpen(s))
  {
    hide Life, Reactive, Requests, Writes, Reads, NoCredits, NoData, NoEmptyItem, PositiveCredits;
    hide Collect, CreditBytes, CreditSlots, Flat, Keys, Backlog, Tag;
    LifeStop(s.js.isOpen, s.js.closing, s.js.finished, s.stop, StageOf(s.rx.phase), s.callbacks);
  }

  // ---- Reactor actions --------------------------------------------------------------------------------

  /** `send` never finds the 128-slot callback queue full. */
  lemma CallbackRoom(s: State)
    requires Inv(s)
    ensures |s.callbacks| < CALLBACK_CAPACITY
  {
    CallbackBound(s);
  }

  /** Publishing what the phase holds moves it without reordering. */
  lemma PushEvent(s: State, e: Event, next: Phase)
    requires CompletedIds(next) == [] && Collected(next) == []
    ensures var t := s.(callbacks := s.callbacks + [e], rx := s.rx.(phase := next));
            && (DoneId(e) == CompletedIds(s.rx.phase) ==> Outstanding(t) == Outstanding(s))
            && (ReadEventId(e) == [] ==> ReadIds(t) == ReadIds(s))
            && (ChunksOf(e) == Collected(s.rx.phase) ==> Upstream(t) == Upstream(s) && InFlight(t) == InFlight(s))
            && (Collected(s.rx.phase) == [] ==>
                  Upstream(t) == Upstream(s) + ChunksOf(e) && InFlight(t) == InFlight(s) + ChunksOf(e))
  {
    hide Collect;
    EventSnoc(s.callbacks, e);
    assert ReadEventId(e) == [] ==> ReadEventIds(s.callbacks) + [] == ReadEventIds(s.callbacks);
  }

  lemma KeepRxOpen(s: State, ok: bool)
    requires Inv(s)
    ensures Inv(RxOpen(s, ok))
  {
    hide Life, Reactive, Requests, Writes, Reads, NoCredits, NoData, NoEmptyItem, PositiveCredits;
    hide Collect, CreditBytes, CreditSlots, Flat, Keys, Backlog, Tag;
    if s.rx.phase.Opening? {
      LifeFacts(s);
      LifeOpened(s.js.isOpen, s.js.closing, s.js.finished, s.stop, s.callbacks);
      LifeLeave(s.js.isOpen, s.js.closing, s.js.finished, s.stop, StageOf(s.rx.phase), s.callbacks);
      EventSnoc(s.callbacks, Opened);
      PushEvent(s, Opened, Ready);
    }
  }

  lemma LifeOpened(isOpen: bool, closing: bool, finished: bool, stop: bool, callbacks: seq<Event>)
    requires Life(isOpen, closing, finished, stop, Starting, callbacks)
    ensures callbacks == []
    ensures Life(isOpen, closing, finished, stop, Running, callbacks + [Opened])
  {
  }

  /** An explicit read that reaches the reactor is never refused as busy. */
  lemma ReadIsWelcome(s: State)
    requires Inv(s) && s.rx.phase.Ready? && s.channel != [] && s.channel[0].Read?
    ensures s.rx.read.None? && !s.rx.streaming
  {
    CommandPop(s.channel);
    assert |ReadIds(s)| >= 1;
  }

  /** The "Invalid read credit" branch is unreachable. */
  lemma CreditIsValid(s: State)
    requires Inv(s) && s.rx.phase.Ready? && s.channel != [] && s.channel[0].Credit?
    ensures s.rx.read.None? && s.js.streaming
    ensures s.rx.bytes + s.channel[0].bytes <= CHUNK_SIZE && s.rx.slots + s.channel[0].slots <= READ_SLOTS
  {
    assert s.channel[0] in s.channel;
    CommandPop(s.channel);
    CountChannel(s.channel[1..]);
  }

  lemma KeepReceiveRead(s: State)
    requires Inv(s) && s.rx.phase.Ready? && s.channel != [] && s.channel[0].Read?
    ensures Inv(RxReceive(s))
  {
    hide Life, Reactive, Requests, Writes, Reads, NoCredits, NoData, NoEmptyItem, PositiveCredits;
    hide Collect, CreditBytes, CreditSlots, Flat, Keys, Backlog, Tag;
    ReadIsWelcome(s);
    CommandPop(s.channel);
    assert ReadIds(RxReceive(s)) == ReadIds(s);
    assert Outstanding(RxReceive(s)) == Outstanding(s);
    assert Pipeline(RxReceive(s)) == Pipeline(s);
  }

  lemma KeepReceiveCredit(s: State)
    requires Inv(s) && s.rx.phase.Ready? && s.channel != [] && s.channel[0].Credit?
    ensures Inv(RxReceive(s))
  {
    hide InvCredits, InvReads;
    hide Life, Reactive, Requests, Writes, NoCredits, NoData, NoEmptyItem;
    hide Collect, Outstanding, ReadIds, Pipeline, Upstream, InFlight;
    CreditIsValid(s);
    CommandPop(s.channel);
    ReceiveCreditCounts(s);
    ReceiveCreditPlaces(s);
  }

  lemma ReceiveCreditPlaces(s: State)
    requires s.rx.phase.Ready? && s.channel != [] && s.channel[0].Credit?
    ensures var t := RxReceive(s);
            ReadIds(t) == ReadIds(s) && Outstanding(t) == Outstanding(s) && Pipeline(t) == Pipeline(s)
  {
    hide Collect, Backlog;
    CommandPop(s.channel);
  }

  lemma ReceiveCreditCounts(s: State)
    requires Inv(s) && s.rx.phase.Ready? && s.channel != [] && s.channel[0].Credit?
    ensures InvCredits(RxReceive(s)) && InvReads(RxReceive(s))
  {
    hide InvLife, InvReactive, InvRequests, InvReservations, InvWrites, InvQueued, InvQuiet;
    hide Reads, PositiveCredits, Collect, CreditBytes, CreditSlots, Flat;
    CreditIsValid(s);
    CommandPop(s.channel);
    assert Upstream(RxReceive(s)) == Upstream(s) && InFlight(RxReceive(s)) == InFlight(s);
  }

  lemma BacklogSnoc(commands: seq<Command>, written: nat, c: Command)
    requires Reactive(commands, written) && c.Ordered()
    ensures Reactive(commands + [c], written)
    ensures Backlog(commands + [c], written) == Backlog(commands, written) + CellsOf(c)
  {
    hide Collect;
    BacklogWithin(commands, written);
    CommandSnoc(commands, c);
    var all := Cells(commands);
    assert (all + CellsOf(c))[written..] == all[written..] + CellsOf(c);
  }

  lemma BacklogWithin(commands: seq<Command>, written: nat)
    requires Reactive(commands, written)
    ensures written <= |Cells(commands)|
  {
    hide Collect;
    if commands != [] { CommandPop(commands); }
  }

  /** A received command moves from the channel to the backlog; nothing else notices. */
  lemma ReceiveOrderedMoves(s: State)
    requires InvReactive(s) && s.rx.phase.Ready? && s.channel != [] && s.channel[0].Ordered()
    ensures var t := RxReceive(s);
            && Outstanding(t) == Outstanding(s) && ReadIds(t) == ReadIds(s) && Pipeline(t) == Pipeline(s)
            && |OrderedIds(t.rx.commands)| + |OrderedIds(t.channel)| == |OrderedIds(s.rx.commands)| + |OrderedIds(s.channel)|
  {
    hide Reactive, Collect, Backlog, Pipeline;
    CommandPop(s.channel);
    CommandSnoc(s.rx.commands, s.channel[0]);
    ReceivePipeline(s);
  }

  lemma ReceivePipeline(s: State)
    requires InvReactive(s) && s.rx.phase.Ready? && s.channel != [] && s.channel[0].Ordered()
    ensures Pipeline(RxReceive(s)) == Pipeline(s)
  {
    hide Reactive, Collect, Backlog;
    CommandPop(s.channel);
    BacklogSnoc(s.rx.commands, s.rx.written, s.channel[0]);
  }

  lemma KeepReceiveOrdered(s: State)
    requires Inv(s) && s.rx.phase.Ready? && s.channel != [] && s.channel[0].Ordered()
    ensures Inv(RxReceive(s))
  {
    hide Life, Reactive, Requests, Writes, Reads, NoCredits, NoData, NoEmptyItem, PositiveCredits;
    hide Collect, CreditBytes, CreditSlots, Flat, Keys, Backlog, Tag;
    hide Outstanding, ReadIds, Pipeline, OrderedIds;
    CommandPop(s.channel);
    ReceiveOrderedMoves(s);
    BacklogSnoc(s.rx.commands, s.rx.written, s.channel[0]);
  }

  lemma KeepReceive(s: State)
    requires Inv(s)
    ensures Inv(RxReceive(s))
  {
    hide Inv;
    if s.rx.phase.Ready? && s.channel != [] {
      if s.channel[0].Read? { KeepReceiveRead(s); }
      else if s.channel[0].Credit? { KeepReceiveCredit(s); }
      else { KeepReceiveOrdered(s); }
    }
  }

  lemma BacklogPop(commands: seq<Command>, written: nat)
    requires Reactive(commands, written) && commands != []
    requires commands[0].Write? ==> written >= |commands[0].data|
    ensures Reactive(commands[1..], 0)
    ensures Backlog(commands[1..], 0) == Backlog(commands, written)
    ensures commands[0].Control? ==> written == 0
  {
    CommandPop(commands);
    assert forall c :: c in commands[1..] ==> c in commands;
    assert commands[0] in commands;
  }

  lemma KeepComplete(s: State)
    requires Inv(s)
    ensures Inv(RxComplete(s))
  {
    hide Life, Reactive, Requests, Writes, Reads, NoCredits, NoData, NoEmptyItem, PositiveCredits;
    hide Collect, CreditBytes, CreditSlots, Flat, Keys, Backlog, Tag;
    if RxComplete(s) != s {
      CommandPop(s.rx.commands);
      BacklogPop(s.rx.commands, s.rx.written);
      assert Outstanding(RxComplete(s)) == Outstanding(s);
      assert Pipeline(RxComplete(s)) == Pipeline(s);
    }
  }

  lemma KeepPublishDone(s: State)
    requires Inv(s)
    ensures Inv(RxPublishDone(s))
  {
    hide Outstanding, ReadIds, Upstream, InFlight;
    hide Life, Reactive, Requests, Writes, Reads, NoCredits, NoData, NoEmptyItem, PositiveCredits;
    hide Collect, CreditBytes, CreditSlots, Flat, Keys, Backlog, Tag;
    if s.rx.phase.Completed? {
      var e := s.rx.phase.event;
      CallbackRoom(s);
      LifePush(s.js.isOpen, s.js.closing, s.js.finished, s.stop, Running, Running, s.callbacks, e);
      EventSnoc(s.callbacks, e);
      PushEvent(s, e, Ready);
    }
  }

  lemma BacklogWrite(commands: seq<Command>, written: nat, count: nat)
    requires Reactive(commands, written) && commands != [] && commands[0].Write?
    requires written + count <= |commands[0].data|
    ensures Reactive(commands, written + count)
    ensures Backlog(commands, written)
            == commands[0].data[written..written + count] + Backlog(commands, written + count)
  {
    CommandPop(commands);
  }

  lemma KeepRxWrite(s: State, count: nat)
    requires Inv(s)
    ensures Inv(RxWrite(s, count))
  {
    hide InvWrites;
    hide Life, Reactive, Requests, Reads, NoCredits, NoData, NoEmptyItem, PositiveCredits;
    hide Collect, CreditBytes, CreditSlots, Flat, Keys, Backlog, Tag;
    if RxWrite(s, count) != s {
      BacklogWrite(s.rx.commands, s.rx.written, count);
      DeviceWrites(s, count);
    }
  }

  lemma DeviceWrites(s: State, count: nat)
    requires InvReactive(s) && InvWrites(s)
    ensures InvWrites(RxWrite(s, count))
  {
    hide Reactive, Writes, Collect, Backlog, Tag;
    if RxWrite(s, count) != s {
      var taken := s.rx.commands[0].data[s.rx.written..s.rx.written + count];
      BacklogWrite(s.rx.commands, s.rx.written, count);
      assert Pipeline(s) == taken + Pipeline(RxWrite(s, count));
      assert CallCells(s.call)[0..] == CallCells(s.call);
      WritesAccept(s.log.attempted, s.log.promised, s.log.gap, s.log.accepted,
                   taken, Pipeline(RxWrite(s, count)), CallCells(s.call), 0);
    }
  }

  /** A chunk appended at the reactor's end of the pipeline. */
  lemma ChunkIn(inFlight: seq<Bytes>, upstream: seq<Bytes>, data: Bytes)
    ensures |Flat(inFlight + [data])| == |Flat(inFlight)| + |data|
    ensures |Flat(upstream + [data])| == |Flat(upstream)| + |data|
  {
    FlatSnoc(inFlight, data);
    FlatSnoc(upstream, data);
  }

  /** The observations do not depend on the read window or the log. */
  lemma PlacesIgnoreAccounting(s: State, rx: Reactor, log: Log)
    requires rx == s.rx.(bytes := rx.bytes, slots := rx.slots, size := rx.size)
    ensures var t := s.(rx := rx, log := log);
            && Outstanding(t) == Outstanding(s) && ReadIds(t) == ReadIds(s)
            && Upstream(t) == Upstream(s) && InFlight(t) == InFlight(s)
  {
  }

  lemma KeepStreamRead(s: State, data: Bytes)
    requires Inv(s) && RxRead(s, data) != s && s.rx.streaming
    ensures Inv(RxRead(s, data))
  {
    hide InvReads, InvCredits, InvRequests, InvWrites, InvReservations;
    hide Life, Reactive, NoCredits, NoData, NoEmptyItem, Collect, NextSize, Outstanding, ReadIds;
    var e, t := Data(Single(data)), RxRead(s, data);
    CallbackRoom(s);
    LifePush(s.js.isOpen, s.js.closing, s.js.finished, s.stop, Running, Running, s.callbacks, e);
    EventSnoc(s.callbacks, e);
    PushEvent(s, e, t.rx.phase);
    PlacesIgnoreAccounting(s.(callbacks := t.callbacks, rx := s.rx.(phase := t.rx.phase)), t.rx, t.log);
    StreamReadCounts(s, data);
    StreamReadRequests(s, data);
  }

  lemma StreamReadRequests(s: State, data: Bytes)
    requires Inv(s) && RxRead(s, data) != s && s.rx.streaming
    ensures InvRequests(RxRead(s, data)) && InvWrites(RxRead(s, data)) && InvReservations(RxRead(s, data))
  {
    hide InvLife, InvReactive, InvExclusive, InvQuiet, InvReads, InvQueued, InvCredits;
    hide Requests, Writes, Collect, Backlog, NextSize, Outstanding, ReadIds;
    var e, t := Data(Single(data)), RxRead(s, data);
    CallbackRoom(s);
    EventSnoc(s.callbacks, e);
    PushEvent(s, e, t.rx.phase);
    PlacesIgnoreAccounting(s.(callbacks := t.callbacks, rx := s.rx.(phase := t.rx.phase)), t.rx, t.log);
  }

  lemma StreamReadCounts(s: State, data: Bytes)
    requires Inv(s) && RxRead(s, data) != s && s.rx.streaming
    ensures InvReads(RxRead(s, data)) && InvCredits(RxRead(s, data))
  {
    hide InvLife, InvReactive, InvRequests, InvReservations, InvWrites, InvQueued;
    hide Reads, NoCredits, NoData, NoEmptyItem, PositiveCredits;
    hide Collect, CreditBytes, CreditSlots, Flat, Backlog, NextSize;
    hide Outstanding, ReadIds, Upstream, InFlight;
    var e, t := Data(Single(data)), RxRead(s, data);
    CallbackRoom(s);
    EventSnoc(s.callbacks, e);
    PushEvent(s, e, t.rx.phase);
    PlacesIgnoreAccounting(s.(callbacks := t.callbacks, rx := s.rx.(phase := t.rx.phase)), t.rx, t.log);
    ReadsProduce(s.js.isOpen || !s.js.streaming, s.log.received, InFlight(s), s.log.produced, data);
    ChunkIn(InFlight(s), Upstream(s), data);
  }

  lemma KeepExplicitRead(s: State, data: Bytes)
    requires Inv(s) && RxRead(s, data) != s && !s.rx.streaming
    ensures Inv(RxRead(s, data))
  {
    hide Life, Reactive, Requests, Writes, Reads, NoCredits, NoData, NoEmptyItem, PositiveCredits;
    hide Collect, CreditBytes, CreditSlots, Flat, Keys, Backlog, Tag, NextSize;
    assert s.rx.read.Some?;
    var e, t := ReadDone(s.rx.read.value.0, data), RxRead(s, data);
    CallbackRoom(s);
    LifeFacts(s);
    LifePush(s.js.isOpen, s.js.closing, s.js.finished, s.stop, Running, Running, s.callbacks, e);
    EventSnoc(s.callbacks, e);
    assert Outstanding(t) == Outstanding(s) && ReadIds(t) == ReadIds(s);
    assert InFlight(t) == InFlight(s) + [data];
    ReadsProduce(s.js.isOpen || !s.js.streaming, s.log.received, InFlight(s), s.log.produced, data);
  }

  lemma KeepRxRead(s: State, data: Bytes)
    requires Inv(s)
    ensures Inv(RxRead(s, data))
  {
    hide Inv, RxRead;
    if RxRead(s, data) != s {
      if s.rx.streaming { KeepStreamRead(s, data); } else { KeepExplicitRead(s, data); }
    }
  }

  lemma KeepBurstLock(s: State)
    requires Inv(s)
    ensures Inv(RxBurstLock(s))
  {
    hide Life, Reactive, Requests, Writes, Reads, NoCredits, NoData, NoEmptyItem, PositiveCredits;
    hide Collect, CreditBytes, CreditSlots, Flat, Keys, Backlog, Tag;
  }

  lemma KeepBurstRead(s: State, data: Bytes)
    requires Inv(s)
    ensures Inv(RxBurstRead(s, data))
  {
    hide Life, Reactive, Requests, Writes, Reads, NoCredits, NoData, NoEmptyItem, PositiveCredits;
    hide Collect, CreditBytes, CreditSlots, Flat, Keys, Backlog, Tag, NextSize;
    var t := RxBurstRead(s, data);
    if t != s {
      assert Upstream(t) == Upstream(s) + [data];
      assert InFlight(t) == InFlight(s) + [data];
      ReadsProduce(s.js.isOpen || !s.js.streaming, s.log.received, InFlight(s), s.log.produced, data);
      ChunkIn(InFlight(s), Upstream(s), data);
    }
  }

  lemma KeepBurstEnd(s: State, failed: bool)
    requires Inv(s)
    ensures Inv(RxBurstEnd(s, failed))
  {
    hide Life, Reactive, Requests, Writes, Reads, NoCredits, NoData, NoEmptyItem, PositiveCredits;
    hide Collect, CreditBytes, CreditSlots, Flat, Keys, Backlog, Tag;
  }

  lemma NothingPublished(s: State, next: Phase)
    requires CompletedIds(s.rx.phase) == CompletedIds(next) == [] && Collected(s.rx.phase) == Collected(next) == []
    ensures var t := s.(rx := s.rx.(phase := next));
            && Outstanding(t) == Outstanding(s) && ReadIds(t) == ReadIds(s)
            && Upstream(t) == Upstream(s) && InFlight(t) == InFlight(s)
  {
  }

  lemma KeepPublishNothing(s: State)
    requires Inv(s) && s.rx.phase.Publishing? && s.rx.phase.batch == []
    ensures Inv(RxPublish(s))
  {
    hide Outstanding, ReadIds, Upstream, InFlight;
    hide Life, Reactive, Requests, Writes, Reads, NoCredits, NoData, NoEmptyItem, PositiveCredits;
    hide Collect, CreditBytes, CreditSlots, Flat, Keys, Backlog, Tag;
    LifeLeave(s.js.isOpen, s.js.closing, s.js.finished, s.stop, Running, s.callbacks);
    NothingPublished(s, RxPublish(s).rx.phase);
  }

  lemma KeepPublishBatch(s: State)
    requires Inv(s) && s.rx.phase.Publishing? && s.rx.phase.batch != []
    ensures Inv(RxPublish(s))
  {
    hide Outstanding, ReadIds, Upstream, InFlight;
    hide Life, Reactive, Requests, Writes, Reads, NoCredits, NoData, NoEmptyItem, PositiveCredits;
    hide Collect, CreditBytes, CreditSlots, Flat, Keys, Backlog, Tag;
    var e, t := Data(Followers(s.rx.phase.batch)), RxPublish(s);
    CallbackRoom(s);
    LifePush(s.js.isOpen, s.js.closing, s.js.finished, s.stop, Running, StageOf(t.rx.phase), s.callbacks, e);
    EventSnoc(s.callbacks, e);
    PushEvent(s, e, t.rx.phase);
  }

  lemma KeepPublish(s: State)
    requires Inv(s)
    ensures Inv(RxPublish(s))
  {
    hide Inv;
    if s.rx.phase.Publishing? {
      if s.rx.phase.batch == [] { KeepPublishNothing(s); } else { KeepPublishBatch(s); }
    }
  }


  lemma KeepFail(s: State)
    requires Inv(s)
    ensures Inv(RxFail(s))
  {
    hide Life, Reactive, Requests, Writes, Reads, NoCredits, NoData, NoEmptyItem, PositiveCredits;
    hide Collect, CreditBytes, CreditSlots, Flat, Keys, Backlog, Tag;
    if s.rx.phase.Ready? {
      LifeLeave(s.js.isOpen, s.js.closing, s.js.finished, s.stop, Running, s.callbacks);
    }
  }

  lemma LifeEnd(isOpen: bool, closing: bool, finished: bool, stop: bool, callbacks: seq<Event>)
    ensures Life(isOpen, closing, finished, stop, Leaving, callbacks) ==>
              Life(isOpen, closing, finished, true, Stopped, callbacks)
    ensures Life(isOpen, closing, finished, stop, Stopped, callbacks) ==>
              Life(isOpen, closing, finished, stop, Over, callbacks + [Closed])
  {
  }

  lemma KeepRelease(s: State)
    requires Inv(s)
    ensures Inv(RxRelease(s))
  {
    hide Life, Reactive, Requests, Writes, Reads, NoCredits, NoData, NoEmptyItem, PositiveCredits;
    hide Collect, CreditBytes, CreditSlots, Flat, Keys, Backlog, Tag;
    LifeEnd(s.js.isOpen, s.js.closing, s.js.finished, s.stop, s.callbacks);
  }

  lemma KeepRxClose(s: State)
    requires Inv(s)
    ensures Inv(RxClose(s))
  {
    hide Outstanding, ReadIds, Upstream, InFlight;
    hide Life, Reactive, Requests, Writes, Reads, NoCredits, NoData, NoEmptyItem, PositiveCredits;
    hide Collect, CreditBytes, CreditSlots, Flat, Keys, Backlog, Tag;
    if s.rx.phase.Released? {
      CallbackRoom(s);
      LifeEnd(s.js.isOpen, s.js.closing, s.js.finished, s.stop, s.callbacks);
      EventSnoc(s.callbacks, Closed);
      PushEvent(s, Closed, Gone);
    }
  }

  // ---- Runs -----------------------------------------------------------------------------------------------

  lemma KeepStep(s: State, a: Action)
    requires Inv(s)
    ensures Inv(Step(s, a))
  {
    hide Inv;
    match a
    case AWrite(id, payload) => KeepWrite(s, id, payload);
    case AControl(id) => KeepControl(s, id);
    case ARead(id, length) => KeepRead(s, id, length);
    case AStartReading(limit) => KeepStartReading(s, limit);
    case ALoad => KeepLoad(s);
    case ATryWrite(count) => KeepTryWrite(s, count);
    case AEnqueue => KeepEnqueue(s);
    case ASend => KeepSend(s);
    case AMicrotask => KeepMicrotask(s);
    case AListenerReturns => KeepListenerReturns(s);
    case AListenerThrows => KeepListenerThrows(s);
    case ACallback => KeepCallback(s);
    case AReadSettled => KeepReadSettled(s);
    case AClose => KeepClose(s);
    case ACancelOpen => KeepCancelOpen(s);
    case ROpen(ok) => KeepRxOpen(s, ok);
    case RReceive => KeepReceive(s);
    case RComplete => KeepComplete(s);
    case RPublishDone => KeepPublishDone(s);
    case RWrite(taken) => KeepRxWrite(s, taken);
    case RRead(data) => KeepRxRead(s, data);
    case RBurstLock => KeepBurstLock(s);
    case RBurstRead(data) => KeepBurstRead(s, data);
    case RBurstEnd(failed) => KeepBurstEnd(s, failed);
    case RPublish => KeepPublish(s);
    case RFail => KeepFail(s);
    case RRelease => KeepRelease(s);
    case RClose => KeepRxClose(s);
  }

  lemma InitInv()
    ensures Inv(Init())
  {
    hide InvLife, InvReactive, InvExclusive, InvQuiet, InvRequests, InvReservations, InvWrites, InvReads, InvQueued, InvCredits;
    InitControl();
    InitRequests();
    InitData();
  }

  lemma InitControl()
    ensures InvLife(Init()) && InvReactive(Init()) && InvExclusive(Init()) && InvQuiet(Init())
  {
  }

  lemma InitRequests()
    ensures InvRequests(Init()) && InvReservations(Init()) && InvCredits(Init())
  {
    assert Keys(map[], true) == {} && Keys(map[], false) == {};
  }

  lemma InitData()
    ensures InvWrites(Init()) && InvReads(Init()) && InvQueued(Init())
  {
    hide InvWrites;
    InitWrites();
  }

  lemma InitWrites()
    ensures InvWrites(Init())
  {
    assert Tag([], 0) == [];
  }

  /** Every schedule of the two threads keeps the invariants. */
  lemma {:induction false} Safety(schedule: seq<Action>)
    ensures Inv(Run(schedule))
  {
    hide Inv;
    if schedule == [] {
      InitInv();
    } else {
      Safety(schedule[..|schedule| - 1]);
      KeepStep(Run(schedule[..|schedule| - 1]), schedule[|schedule| - 1]);
    }
  }
}
