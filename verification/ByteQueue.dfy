/** A queue of received chunks that behaves like one byte string. */
module ByteQueues {
  import opened Common

  datatype Result<+T> = Ok(value: T) | RangeError

  /** Buffer.copy: as much of `source` as fits into `target` from `at` on. */
  method Copy(source: Bytes, target: array<byte>, at: nat) returns (count: nat)
    requires at <= target.Length
    modifies target
    ensures count == Min(|source|, target.Length - at)
    ensures target[..at] == old(target[..at]) && target[at + count..] == old(target[at + count..])
    ensures target[at..at + count] == source[..count]
  {
    count := Min(|source|, target.Length - at);
    for i := 0 to count
      invariant forall k :: 0 <= k < i ==> target[at + k] == source[k]
      invariant forall k :: 0 <= k < target.Length && !(at <= k < at + i) ==> target[k] == old(target[k])
    {
      target[at + i] := source[i];
    }
  }

  ghost predicate AllSome(slots: seq<Option<Bytes>>) {
    forall s :: s in slots ==> s.Some? && s.value != []
  }

  /** The bytes stored in a run of occupied slots. */
  ghost function Stored(slots: seq<Option<Bytes>>): Bytes
    requires AllSome(slots)
  {
    if slots == [] then [] else slots[0].value + Stored(slots[1..])
  }

  lemma {:induction false} StoredSnoc(slots: seq<Option<Bytes>>, chunk: Bytes)
    requires AllSome(slots) && chunk != []
    ensures AllSome(slots + [Some(chunk)])
    ensures Stored(slots + [Some(chunk)]) == Stored(slots) + chunk
  {
    if slots == [] {
      assert slots + [Some(chunk)] == [Some(chunk)];
      assert [Some(chunk)][1..] == [];
    } else {
      assert (slots + [Some(chunk)])[1..] == slots[1..] + [Some(chunk)];
      StoredSnoc(slots[1..], chunk);
    }
  }

  lemma StoredHead(slots: seq<Option<Bytes>>)
    requires AllSome(slots)
    ensures slots == [] <==> Stored(slots) == []
    ensures slots != [] ==> slots[0].Some? && slots[0].value != [] && AllSome(slots[1..])
                            && Stored(slots) == slots[0].value + Stored(slots[1..])
  {
    if slots != [] { assert slots[0] in slots; }
  }

  lemma Extended(bytes: Bytes, filled: nat, chunk: Bytes, rest: Bytes, copied: nat)
    requires filled <= |bytes| && bytes[filled..] == chunk + rest && copied <= |chunk|
    ensures bytes[..filled + copied] == bytes[..filled] + chunk[..copied]
    ensures copied == |chunk| ==> bytes[filled + copied..] == rest
  {
    assert bytes == bytes[..filled] + (chunk + rest);
  }

  class ByteQueue {
    var chunks: seq<Option<Bytes>>
    var head: nat
    var offset: nat
    var length: nat
    ghost var appended: nat   // chunks ever stored
    ghost var copied: nat     // slots ever copied by a compaction

    ghost predicate Shape()
      reads this
    {
      && head <= |chunks|
      && AllSome(chunks[head..])
      && (forall i :: 0 <= i < head ==> chunks[i].None?)
      && (if head < |chunks| then offset < |chunks[head].value| else offset == 0)
      && copied + |chunks| <= appended
    }

    /** Consumed slots are released, few, and every compaction is paid for by earlier appends. */
    ghost predicate Valid()
      reads this
    {
      && Shape()
      && length == |Stored(chunks[head..])| - offset
      && (length == 0 ==> chunks == [])
      && (head < 64 || head < |chunks| - head)
    }

    ghost function Contents(): (r: Bytes)
      reads this
      requires Valid()
      ensures |r| == length
    {
      Stored(chunks[head..])[offset..]
    }

    constructor ()
      ensures Valid() && Contents() == [] && copied == 0
    {
      chunks, head, offset, length := [], 0, 0, 0;
      appended, copied := 0, 0;
    }

    method Append(buffer: Bytes)
      requires Valid()
      modifies this
      ensures Valid() && Contents() == old(Contents()) + buffer && copied == old(copied)
      ensures appended == old(appended) + (if buffer == [] then 0 else 1)
    {
      if buffer != [] {
        StoredSnoc(chunks[head..], buffer);
        StoredHead(chunks[head..]);
        assert (chunks + [Some(buffer)])[head..] == chunks[head..] + [Some(buffer)];
        chunks := chunks + [Some(buffer)];
        length := length + |buffer|;
        appended := appended + 1;
      }
    }

    /** The first `count` bytes without consuming them; one chunk is returned as it is, several
      are copied into a fresh buffer. */
    method Peek(count: nat) returns (r: Result<Bytes>)
      requires Valid()
      ensures r == if count <= length then Ok(Contents()[..count]) else RangeError
    {
      hide Stored, AllSome;
      if count == 0 { return Ok([]); }
      if count > length { return RangeError; }
      ghost var bytes := Contents();
      StoredHead(chunks[head..]);
      var first := chunks[head].value;
      assert chunks[head..][0].value == first && chunks[head..][1..] == chunks[head + 1..];
      assert bytes == first[offset..] + Stored(chunks[head + 1..]);
      if |first| - offset >= count {
        r := Ok(first[offset..offset + count]);
        assert r.value == bytes[..count];
      } else {
        r := Gather(count);
      }
    }

    /** The bytes lie in several chunks. */
    method Gather(count: nat) returns (r: Result<Bytes>)
      requires Valid() && 0 < count <= length && |chunks[head].value| - offset < count
      ensures r == Ok(Contents()[..count])
    {
      hide Stored, AllSome;
      ghost var bytes := Contents();
      StoredHead(chunks[head..]);
      var first := chunks[head].value;
      assert chunks[head..][0].value == first && chunks[head..][1..] == chunks[head + 1..];
      assert bytes == first[offset..] + Stored(chunks[head + 1..]);
      var result := new byte[count];
      var filled := Copy(first[offset..], result, 0);
      assert result[..filled] == first[offset..] == bytes[..filled];
      var i := head + 1;
      while filled < count
        invariant head < i <= |chunks| && filled <= count && AllSome(chunks[i..])
        invariant result[..filled] == bytes[..filled]
        invariant filled < count ==> Stored(chunks[i..]) == bytes[filled..]
        decreases count - filled
      {
        StoredHead(chunks[i..]);
        var chunk := chunks[i].value;
        assert chunks[i..][0].value == chunk && chunks[i..][1..] == chunks[i + 1..];
        var copied := Copy(chunk, result, filled);
        Extended(bytes, filled, chunk, Stored(chunks[i + 1..]), copied);
        assert result[..filled + copied] == result[..filled] + result[filled..filled + copied];
        filled := filled + copied;
        i := i + 1;
      }
      assert result[..] == result[..filled];
      r := Ok(result[..]);
    }

    method Take(count: nat) returns (r: Result<Bytes>)
      requires Valid()
      modifies this
      ensures Valid() && appended == old(appended)
      ensures r == if count <= old(length) then Ok(old(Contents())[..count]) else RangeError
      ensures Contents() == if count <= old(length) then old(Contents())[count..] else old(Contents())
    {
      r := Peek(count);
      if r.Ok? { var _ := Discard(count); }
    }

    method Discard(count: int) returns (r: Result<()>)
      requires Valid()
      modifies this
      ensures Valid() && appended == old(appended)
      ensures r.Ok? <==> 0 <= count <= old(length)
      ensures Contents() == if r.Ok? then old(Contents())[count..] else old(Contents())
    {
      hide Stored, AllSome;
      if count > length || count < 0 { return RangeError; }
      r := Ok(());
      ghost var bytes := Contents();
      var left := count;
      length := length - count;
      while left > 0
        invariant Shape() && copied == old(copied) && appended == old(appended)
        invariant 0 <= left <= count && length == |bytes| - count
        invariant head <= |chunks| && AllSome(chunks[head..]) && offset <= |Stored(chunks[head..])|
        invariant Stored(chunks[head..])[offset..] == bytes[count - left..]
      {
        StoredHead(chunks[head..]);
        ghost var rest := chunks[head + 1..];
        var available := |chunks[head].value| - offset;
        assert chunks[head..][0] == chunks[head] && chunks[head..][1..] == rest;
        assert bytes[count - left..] == chunks[head].value[offset..] + Stored(rest);
        if left < available {
          offset := offset + left;
          left := 0;
        } else {
          left := left - available;
          chunks := chunks[head := None];
          head := head + 1;
          offset := 0;
          assert chunks[head..] == rest;
          StoredHead(rest);
          if head < |chunks| { assert rest[0] == chunks[head]; }
        }
      }
      assert Stored(chunks[head..])[offset..] == bytes[count..];
      if length == 0 {
        Clear();
      } else if head >= 64 && head * 2 >= |chunks| {
        copied := copied + (|chunks| - head);
        chunks := chunks[head..];
        assert chunks[0..] == chunks;
        head := 0;
      }
    }

    method Clear()
      modifies this
      requires Valid() || copied + |chunks| <= appended
      ensures Valid() && Contents() == [] && appended == old(appended) && copied == old(copied)
    {
      chunks := [];
      head := 0;
      offset := 0;
      length := 0;
    }
  }
}
