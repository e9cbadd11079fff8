/** Vectored writes: the binding cuts them into requests, the native side gathers each request. */
module Vectors {
  import opened Common
  import opened Protocol

  const MAX_SEGMENTS: nat := 1024

  /** What the native side admits as one request. */
  ghost predicate Fits(request: seq<Bytes>) {
    1 <= |request| <= MAX_SEGMENTS && 1 <= |Flat(request)| <= CHUNK_SIZE
  }

  ghost predicate Full(request: seq<Bytes>) {
    |request| == MAX_SEGMENTS || |Flat(request)| == CHUNK_SIZE
  }

  /** Requests in order: all fit, and all but the last are as large as they can be. */
  ghost predicate Cut(requests: seq<seq<Bytes>>) {
    && (forall r :: r in requests ==> Fits(r))
    && (forall k :: 0 <= k < |requests| - 1 ==> Full(requests[k]))
  }

  lemma FlatTwice(requests: seq<seq<Bytes>>, last: seq<Bytes>)
    ensures Flat(Flat(requests + [last])) == Flat(Flat(requests)) + Flat(last)
  {
    FlatSnoc(requests, last);
    FlatAppend(Flat(requests), last);
  }

  lemma CutSnoc(requests: seq<seq<Bytes>>, last: seq<Bytes>)
    requires Cut(requests) && Fits(last) && forall r :: r in requests ==> Full(r)
    ensures Cut(requests + [last])
  {
  }

  /** `writev` of the binding.  `accepts(k)` says whether request `k` succeeds; the first failure
    ends the call.  The requests carry a prefix of the input, all of it on success. */
  method Writev(buffers: seq<Bytes>, accepts: nat -> bool) returns (requests: seq<seq<Bytes>>, ok: bool)
    ensures Cut(requests)
    ensures Flat(Flat(requests)) <= Flat(buffers) && (ok ==> Flat(Flat(requests)) == Flat(buffers))
    ensures ok <==> forall k :: 0 <= k < |requests| ==> accepts(k)
    ensures !ok ==> forall k :: 0 <= k < |requests| - 1 ==> accepts(k)
  {
    hide Flat, Cut, Fits, Full;
    requests := [];
    var batch: seq<Bytes> := [];
    var size: nat := 0;
    Nothing(buffers);
    for i := 0 to |buffers|
      invariant Progress(buffers[..i], requests, batch, size)
      invariant forall k :: 0 <= k < |requests| ==> accepts(k)
    {
      requests, batch, size, ok := WriteBuffer(buffers[i], accepts, buffers[..i], requests, batch, size);
      assert buffers[..i + 1] == buffers[..i] + [buffers[i]];
      FlatSnoc(buffers[..i], buffers[i]);
      FlatPrefix(buffers[..i + 1], buffers);
      if !ok { return; }
    }
    assert buffers[..|buffers|] == buffers;
    if size > 0 {
      Finished(requests, batch, Flat(buffers));
      requests := requests + [batch];
      ok := accepts(|requests| - 1);
    } else {
      Settled(buffers, requests, batch);
      ok := true;
    }
  }

  /** Between two segments: what has been taken is in the requests or in the batch. */
  ghost predicate Holds(taken: Bytes, requests: seq<seq<Bytes>>, batch: seq<Bytes>, size: nat) {
    && Cut(requests) && (forall r :: r in requests ==> Full(r))
    && Flat(Flat(requests)) + Flat(batch) == taken
    && size == |Flat(batch)| < CHUNK_SIZE && |batch| < MAX_SEGMENTS && (batch == [] <==> size == 0)
  }

  ghost predicate Progress(buffers: seq<Bytes>, requests: seq<seq<Bytes>>, batch: seq<Bytes>, size: nat) {
    Holds(Flat(buffers), requests, batch, size)
  }

  lemma Nothing(buffers: seq<Bytes>)
    ensures Progress(buffers[..0], [], [], 0)
  {
    assert Flat(Flat<Bytes>([])) == [];
  }

  lemma Settled(buffers: seq<Bytes>, requests: seq<seq<Bytes>>, batch: seq<Bytes>)
    requires Progress(buffers, requests, batch, 0)
    ensures Cut(requests) && Flat(Flat(requests)) == Flat(buffers)
  {
  }

  /** A batch becomes a request. */
  lemma Finished(requests: seq<seq<Bytes>>, batch: seq<Bytes>, taken: Bytes)
    requires exists size :: size > 0 && (Holds(taken, requests, batch, size) || Filled(taken, requests, batch, size))
    ensures Cut(requests + [batch]) && Flat(Flat(requests + [batch])) == taken
  {
    hide Flat;
    FlatTwice(requests, batch);
    CutSnoc(requests, batch);
  }

  /** The same with a batch that must be sent. */
  ghost predicate Filled(taken: Bytes, requests: seq<seq<Bytes>>, batch: seq<Bytes>, size: nat) {
    && Cut(requests) && (forall r :: r in requests ==> Full(r))
    && Flat(Flat(requests)) + Flat(batch) == taken
    && size == |Flat(batch)| && Fits(batch) && Full(batch)
  }

  /** One more segment. */
  lemma Segment(taken: Bytes, requests: seq<seq<Bytes>>, batch: seq<Bytes>, size: nat, part: Bytes)
    requires Holds(taken, requests, batch, size) && 1 <= |part| <= CHUNK_SIZE - size
    ensures var more := size + |part|;
            if more == CHUNK_SIZE || |batch| + 1 == MAX_SEGMENTS
            then Filled(taken + part, requests, batch + [part], more)
            else Holds(taken + part, requests, batch + [part], more)
  {
    hide Flat, Cut;
    FlatSnoc(batch, part);
    assert Flat(Flat(requests)) + (Flat(batch) + part) == taken + part;
  }

  lemma Emptied(taken: Bytes, requests: seq<seq<Bytes>>, batch: seq<Bytes>, size: nat)
    requires Filled(taken, requests, batch, size)
    ensures Holds(taken, requests + [batch], [], 0) && Cut(requests + [batch])
  {
    hide Cut;
    FlatTwice(requests, batch);
    CutSnoc(requests, batch);
    assert Flat<byte>([]) == [];
  }

  /** The inner loop over one buffer. */
  method WriteBuffer(buffer: Bytes, accepts: nat -> bool, ghost before: seq<Bytes>,
                     sent: seq<seq<Bytes>>, waiting: seq<Bytes>, waitingSize: nat)
    returns (requests: seq<seq<Bytes>>, batch: seq<Bytes>, size: nat, ok: bool)
    requires Progress(before, sent, waiting, waitingSize)
    requires forall k :: 0 <= k < |sent| ==> accepts(k)
    ensures ok ==> Holds(Flat(before) + buffer, requests, batch, size) && forall k :: 0 <= k < |requests| ==> accepts(k)
    ensures !ok ==> Cut(requests) && Flat(Flat(requests)) <= Flat(before) + buffer
                    && requests != [] && !accepts(|requests| - 1)
                    && forall k :: 0 <= k < |requests| - 1 ==> accepts(k)
  {
    hide Flat, Cut, Fits, Full, Holds, Filled;
    requests, batch, size, ok := sent, waiting, waitingSize, true;
    var offset: nat := 0;
    assert Flat(before) + buffer[..0] == Flat(before);
    while offset < |buffer|
      invariant offset <= |buffer| && Holds(Flat(before) + buffer[..offset], requests, batch, size)
      invariant forall k :: 0 <= k < |requests| ==> accepts(k)
      decreases |buffer| - offset
    {
      Room(Flat(before) + buffer[..offset], requests, batch, size);
      var count := Min(|buffer| - offset, CHUNK_SIZE - size);
      var part := if offset == 0 && count == |buffer| then buffer else buffer[offset..offset + count];
      Segment(Flat(before) + buffer[..offset], requests, batch, size, part);
      assert Flat(before) + buffer[..offset] + part == Flat(before) + buffer[..offset + count];
      batch := batch + [part];
      offset := offset + count;
      size := size + count;
      if size == CHUNK_SIZE || |batch| == MAX_SEGMENTS {
        Finished(requests, batch, Flat(before) + buffer[..offset]);
        Emptied(Flat(before) + buffer[..offset], requests, batch, size);
        requests := requests + [batch];
        if !accepts(|requests| - 1) {
          ok := false;
          assert Flat(before) + buffer == (Flat(before) + buffer[..offset]) + buffer[offset..];
          return;
        }
        batch := [];
        size := 0;
      }
    }
    assert buffer[..offset] == buffer;
  }

  lemma Room(taken: Bytes, requests: seq<seq<Bytes>>, batch: seq<Bytes>, size: nat)
    requires Holds(taken, requests, batch, size)
    ensures size < CHUNK_SIZE && |batch| < MAX_SEGMENTS
  {
  }

  // ---- The native side -------------------------------------------------------------------------------

  /** The snapshot native `writev` takes of its segments, or None when it refuses their size. */
  method Gather(buffers: seq<Bytes>, hint: nat) returns (data: Option<Bytes>)
    ensures data == if hint <= CHUNK_SIZE && |buffers| <= MAX_SEGMENTS && |Flat(buffers)| <= CHUNK_SIZE
                    then Some(Flat(buffers)) else None
  {
    hide Flat;
    if hint > CHUNK_SIZE || |buffers| > MAX_SEGMENTS { return None; }
    var all: Bytes := [];
    assert Flat(buffers[..0]) == [] by { Empty(buffers); }
    for i := 0 to |buffers|
      invariant all == Flat(buffers[..i]) && |all| <= CHUNK_SIZE
    {
      assert buffers[..i + 1] == buffers[..i] + [buffers[i]];
      FlatSnoc(buffers[..i], buffers[i]);
      if |buffers[i]| > CHUNK_SIZE - |all| {
        FlatPrefix(buffers[..i + 1], buffers);
        return None;
      }
      all := all + buffers[i];
    }
    assert buffers[..|buffers|] == buffers;
    return Some(all);
  }

  lemma Empty(buffers: seq<Bytes>)
    ensures Flat(buffers[..0]) == []
  {
  }

  /** After a partial inline write the rest is moved to the front of the snapshot. */
  method Shift(data: array<byte>, written: nat) returns (remaining: nat)
    requires written <= data.Length
    modifies data
    ensures remaining == data.Length - written && data[..remaining] == old(data[written..])
  {
    remaining := data.Length - written;
    for i := 0 to remaining
      invariant forall k :: 0 <= k < i ==> data[k] == old(data[written + k])
      invariant forall k :: i <= k < data.Length ==> data[k] == old(data[k])
    {
      data[i] := data[written + i];
    }
  }

  /** The bytes of each request. */
  function Gathered(requests: seq<seq<Bytes>>): seq<Bytes> {
    seq(|requests|, i requires 0 <= i < |requests| => Flat(requests[i]))
  }

  /** What is sent for `buffers`: all of it in order, in payloads as large as they can be. */
  ghost predicate Packed(payloads: seq<Bytes>, buffers: seq<Bytes>) {
    && Flat(payloads) == Flat(buffers) && (forall p :: p in payloads ==> 1 <= |p| <= CHUNK_SIZE)
    && exists requests :: Cut(requests) && payloads == Gathered(requests)
  }

  /** Every request the binding makes is admitted and gathered into exactly its bytes. */
  method Transmit(buffers: seq<Bytes>) returns (payloads: seq<Bytes>)
    ensures Packed(payloads, buffers)
  {
    hide Flat;
    var requests, _ := Writev(buffers, k => true);
    payloads := [];
    Bare(requests);
    for i := 0 to |requests|
      invariant payloads == Gathered(requests[..i])
      invariant Flat(payloads) == Flat(Flat(requests[..i]))
      invariant forall p :: p in payloads ==> 1 <= |p| <= CHUNK_SIZE
    {
      assert requests[i] in requests && requests[..i + 1] == requests[..i] + [requests[i]];
      var data := Gather(requests[i], |Flat(requests[i])|);
      FlatTwice(requests[..i], requests[i]);
      FlatSnoc(payloads, data.value);
      payloads := payloads + [data.value];
    }
    assert requests[..|requests|] == requests;
  }

  lemma Bare(requests: seq<seq<Bytes>>)
    ensures Flat<byte>([]) == Flat(Flat(requests[..0]))
  {
  }
}
