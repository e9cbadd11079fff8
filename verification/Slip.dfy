/** SLIP framing: the encoder, the decoder and what the two do together. */
module Slip {
  import opened Common
  import opened ByteQueues
  import opened Matchers

  /** The byte values of a dialect; `start` and `escStart` are optional. */
  datatype Settings = Settings(
    start: Option<byte>, end: byte, esc: byte,
    escStart: Option<byte>, escEnd: byte, escEsc: byte,
    bluetoothQuirk: bool)
  {
    /** The escape of START is in use. */
    predicate StartEscaped() { start.Some? && escStart.Some? }

    /** The encoder's table: -1 for a byte that is sent as it is. */
    function EncodeCode(b: byte): (code: int)
      ensures -1 <= code < 256
    {
      if StartEscaped() && b == start.value then escStart.value
      else if b == end then escEnd
      else if b == esc then escEsc
      else -1
    }

    /** The decoder's table: -1 for an invalid escape. */
    function DecodeCode(b: byte): (code: int)
      ensures -1 <= code < 256
    {
      if StartEscaped() && b == escStart.value then start.value
      else if b == escEsc then esc
      else if b == escEnd then end
      else -1
    }
  }

  // ---- Encoding ------------------------------------------------------------------------------------

  function EscapeByte(c: Settings, b: byte): Bytes {
    if c.EncodeCode(b) == -1 then [b] else [c.esc, c.EncodeCode(b)]
  }

  function Escape(c: Settings, s: Bytes): Bytes {
    if s == [] then [] else Escape(c, s[..|s| - 1]) + EscapeByte(c, s[|s| - 1])
  }

  function Header(c: Settings): Bytes {
    (if c.bluetoothQuirk then [c.end] else []) + (if c.start.Some? then [c.start.value] else [])
  }

  /** What one payload puts on the wire. */
  function Frame(c: Settings, payload: Bytes): Bytes {
    if c.bluetoothQuirk && payload == [] then [] else Header(c) + Escape(c, payload) + [c.end]
  }

  function Wire(c: Settings, payloads: seq<Bytes>): Bytes {
    if payloads == [] then []
    else Wire(c, payloads[..|payloads| - 1]) + Frame(c, payloads[|payloads| - 1])
  }

  function Escapes(c: Settings, s: Bytes): nat {
    if s == [] then 0
    else Escapes(c, s[..|s| - 1]) + (if c.EncodeCode(s[|s| - 1]) == -1 then 0 else 1)
  }

  lemma {:induction false} EscapeLength(c: Settings, s: Bytes)
    ensures |Escape(c, s)| == |s| + Escapes(c, s)
  {
    if s != [] { EscapeLength(c, s[..|s| - 1]); }
  }

  lemma {:induction false} EscapePlain(c: Settings, s: Bytes)
    requires forall b :: b in s ==> c.EncodeCode(b) == -1
    ensures Escape(c, s) == s && Escapes(c, s) == 0
  {
    if s != [] {
      assert s[|s| - 1] in s;
      EscapePlain(c, s[..|s| - 1]);
      assert s == s[..|s| - 1] + [s[|s| - 1]];
    }
  }

  class SlipEncoder {
    const settings: Settings
    const codes: array<int>

    ghost predicate Valid()
      reads codes
    {
      codes.Length == 256 && forall b: byte :: codes[b] == settings.EncodeCode(b)
    }

    constructor (settings: Settings)
      ensures Valid() && this.settings == settings && fresh(codes)
    {
      this.settings := settings;
      codes := new int[256](_ => -1);
      new;
      codes[settings.esc] := settings.escEsc;
      codes[settings.end] := settings.escEnd;
      if settings.StartEscaped() { codes[settings.start.value] := settings.escStart.value; }
    }

    /** The size of the output before anything is written. */
    method OutputLength(chunk: Bytes, plain: bool) returns (length: nat)
      requires Valid() && (plain ==> Escapes(settings, chunk) == 0)
      ensures length == |Header(settings)| + |Escape(settings, chunk)| + 1
    {
      hide Escape, Escapes, Settings.EncodeCode;
      var c, size := settings, |chunk|;
      length := size + 1 + (if c.start.Some? then 1 else 0) + (if c.bluetoothQuirk then 1 else 0);
      EscapeNothing(c, chunk);
      if !plain {
        for i := 0 to size
          invariant length == size + 1 + |Header(c)| + Escapes(c, chunk[..i])
        {
          EscapeStep(c, chunk, i);
          if codes[chunk[i]] != -1 { length := length + 1; }
        }
        assert chunk[..size] == chunk;
      }
      EscapeLength(c, chunk);
    }

    /** One payload.  The preallocated output is filled exactly, on the bulk path and on the
      escape loop alike. */
    method Transform(chunk: Bytes) returns (r: Option<Bytes>)
      requires Valid()
      ensures r == if settings.bluetoothQuirk && chunk == [] then None else Some(Frame(settings, chunk))
    {
      hide Escape, Escapes, Header, Settings.EncodeCode;
      var c, size := settings, |chunk|;
      if c.bluetoothQuirk && size == 0 { return None; }
      var plain := size >= 256 && codes[chunk[0]] == -1 && c.esc !in chunk && c.end !in chunk
                   && (c.start.None? || c.escStart.None? || c.start.value !in chunk);
      if plain { PlainChunk(c, chunk); }
      var length := OutputLength(chunk, plain);
      var output := new byte[length];
      var offset := WriteHeader(output);
      if plain {
        var copied := Copy(chunk, output, offset);
        offset := offset + copied;
        assert output[..offset] == Header(c) + chunk;
      } else {
        offset := WriteEscaped(chunk, output, offset);
      }
      output[offset] := c.end;
      assert output[..] == output[..offset] + [c.end];
      return Some(output[..]);
    }

    method WriteHeader(output: array<byte>) returns (offset: nat)
      requires |Header(settings)| <= output.Length
      modifies output
      ensures offset == |Header(settings)| && output[..offset] == Header(settings)
    {
      offset := 0;
      if settings.bluetoothQuirk {
        output[offset] := settings.end;
        offset := offset + 1;
      }
      if settings.start.Some? {
        output[offset] := settings.start.value;
        offset := offset + 1;
      }
    }

    /** The escape loop. */
    method WriteEscaped(chunk: Bytes, output: array<byte>, at: nat) returns (offset: nat)
      requires Valid() && (output as object) != codes && at + |Escape(settings, chunk)| <= output.Length
      modifies output
      ensures offset == at + |Escape(settings, chunk)|
      ensures output[..offset] == old(output[..at]) + Escape(settings, chunk)
    {
      hide Escape, Settings.EncodeCode;
      offset := at;
      EscapeNothing(settings, chunk);
      for i := 0 to |chunk|
        invariant offset == at + |Escape(settings, chunk[..i])| <= output.Length
        invariant output[..offset] == old(output[..at]) + Escape(settings, chunk[..i])
      {
        EscapeStep(settings, chunk, i);
        EscapeGrows(settings, chunk, i + 1);
        var code := codes[chunk[i]];
        if code == -1 {
          output[offset] := chunk[i];
          offset := offset + 1;
        } else {
          output[offset] := settings.esc;
          output[offset + 1] := code;
          offset := offset + 2;
        }
      }
      assert chunk[..|chunk|] == chunk;
    }
  }

  lemma EscapeNothing(c: Settings, s: Bytes)
    ensures Escape(c, s[..0]) == [] && Escapes(c, s[..0]) == 0
  {
  }

  lemma EscapeStep(c: Settings, s: Bytes, i: nat)
    requires i < |s|
    ensures Escape(c, s[..i + 1]) == Escape(c, s[..i]) + EscapeByte(c, s[i])
    ensures Escapes(c, s[..i + 1]) == Escapes(c, s[..i]) + (if c.EncodeCode(s[i]) == -1 then 0 else 1)
  {
    assert s[..i + 1][..i] == s[..i];
  }

  /** The native searches exclude every byte that has a code. */
  lemma PlainChunk(c: Settings, s: Bytes)
    requires c.esc !in s && c.end !in s && (c.StartEscaped() ==> c.start.value !in s)
    ensures Escape(c, s) == s && Escapes(c, s) == 0
  {
    EscapePlain(c, s);
  }

  lemma {:induction false} EscapeGrows(c: Settings, s: Bytes, i: nat)
    requires i <= |s|
    ensures |Escape(c, s[..i])| <= |Escape(c, s)|
    decreases |s|
  {
    if i == |s| {
      assert s[..i] == s;
    } else {
      assert s[..|s| - 1][..i] == s[..i];
      EscapeGrows(c, s[..|s| - 1], i);
    }
  }

  // ---- Decoding ------------------------------------------------------------------------------------

  /** The decoder between two bytes.  `started` is meaningful only with a START marker; without
    one it reads as true. */
  datatype Decoder = Decoder(started: bool, escaped: bool, frame: Bytes)

  datatype Decoding = Running(state: Decoder, pushed: seq<Bytes>) | Overflowed(pushed: seq<Bytes>)

  function Fresh(c: Settings): Decoding { Running(Decoder(c.start.None?, false, []), []) }

  /** One byte, without the limit. */
  function Receive(c: Settings, d: Decoder, pushed: seq<Bytes>, b: byte): Decoding {
    if d.escaped then
      var code := c.DecodeCode(b);
      var frame := if code == -1 then [] else d.frame;
      Running(Decoder(d.started, false,
                      if d.started then frame + [if code == -1 then b else code] else frame),
              if code == -1 then pushed + [d.frame] else pushed)
    else if c.start == Some(b) then Running(d.(started := true), pushed)
    else if b == c.esc then Running(d.(escaped := true), pushed)
    else if b == c.end then Running(Decoder(c.start.None?, false, []), pushed + [d.frame])
    else if d.started then Running(d.(frame := d.frame + [b]), pushed)
    else Running(d, pushed)
  }

  /** One byte; a frame that outgrows the limit stops the decoder for good. */
  function Step(c: Settings, limit: Option<nat>, r: Decoding, b: byte): Decoding {
    if r.Overflowed? then r
    else
      var next := Receive(c, r.state, r.pushed, b);
      if TooLong(limit, |next.state.frame|) then Overflowed(next.pushed) else next
  }

  /** The reference decoder: byte by byte. */
  function Decode(c: Settings, limit: Option<nat>, r: Decoding, s: Bytes): Decoding {
    if s == [] then r else Step(c, limit, Decode(c, limit, r, s[..|s| - 1]), s[|s| - 1])
  }

  lemma {:induction false} DecodeAppend(c: Settings, limit: Option<nat>, r: Decoding, a: Bytes, b: Bytes)
    ensures Decode(c, limit, r, a + b) == Decode(c, limit, Decode(c, limit, r, a), b)
  {
    if b == [] {
      assert a + b == a;
    } else {
      assert (a + b)[..|a + b| - 1] == a + b[..|b| - 1];
      DecodeAppend(c, limit, r, a, b[..|b| - 1]);
    }
  }

  lemma DecodeSnoc(c: Settings, limit: Option<nat>, r: Decoding, a: Bytes, b: byte)
    ensures Decode(c, limit, r, a + [b]) == Step(c, limit, Decode(c, limit, r, a), b)
  {
    assert (a + [b])[..|a|] == a;
  }

  lemma {:induction false} OverflowStays(c: Settings, limit: Option<nat>, pushed: seq<Bytes>, s: Bytes)
    ensures Decode(c, limit, Overflowed(pushed), s) == Overflowed(pushed)
  {
    if s != [] { OverflowStays(c, limit, pushed, s[..|s| - 1]); }
  }

  /** A stretch without markers only extends the frame. */
  lemma {:induction false} DecodePlain(c: Settings, limit: Option<nat>, d: Decoder, pushed: seq<Bytes>, s: Bytes)
    requires d.started && !d.escaped && !TooLong(limit, |d.frame|)
    requires c.esc !in s && c.end !in s && (c.start.Some? ==> c.start.value !in s)
    ensures Decode(c, limit, Running(d, pushed), s)
            == if TooLong(limit, |d.frame + s|) then Overflowed(pushed)
               else Running(d.(frame := d.frame + s), pushed)
  {
    if s == [] {
      assert d.frame + s == d.frame;
    } else {
      var b, rest := s[|s| - 1], s[..|s| - 1];
      assert s == rest + [b] && b in s;
      assert d.frame + s == d.frame + rest + [b];
      DecodePlain(c, limit, d, pushed, rest);
    }
  }

  /** The real state `(started, escaped, frame)` represents the reference state, or the reference
    decoder has overflowed and the frame being assembled is what exceeds the limit. */
  ghost predicate Represents(c: Settings, limit: Option<nat>, r: Decoding,
                             started: bool, escaped: bool, frame: Bytes, pushed: seq<Bytes>) {
    if TooLong(limit, |frame|) then r == Overflowed(pushed)
    else r == Running(Decoder(c.start.None? || started, escaped, frame), pushed)
  }

  /** The byte after an ESC. */
  lemma EscapedRepresents(c: Settings, limit: Option<nat>, r: Decoding,
                          started: bool, frame: Bytes, pushed: seq<Bytes>, b: byte)
    requires Represents(c, limit, r, started, true, frame, pushed)
    ensures var next, on, code := Step(c, limit, r, b), c.start.None? || started, c.DecodeCode(b);
            && (code == -1 && TooLong(limit, |frame|) ==> r == Overflowed(pushed))
            && (code == -1 && !TooLong(limit, |frame|) ==>
                  Represents(c, limit, next, on, false, if on then [b] else [], pushed + [frame]))
            && (code != -1 ==>
                  Represents(c, limit, next, on, false, if on then frame + [code] else frame, pushed))
  {
  }

  /** Any other byte. */
  lemma PlainRepresents(c: Settings, limit: Option<nat>, r: Decoding,
                        started: bool, frame: Bytes, pushed: seq<Bytes>, b: byte)
    requires Represents(c, limit, r, started, false, frame, pushed)
    ensures var next, on := Step(c, limit, r, b), c.start.None? || started;
            if c.start == Some(b) then Represents(c, limit, next, true, false, frame, pushed)
            else if b == c.esc then Represents(c, limit, next, on, true, frame, pushed)
            else if b == c.end then
              (TooLong(limit, |frame|) ==> r == Overflowed(pushed))
              && (!TooLong(limit, |frame|) ==> Represents(c, limit, next, false, false, [], pushed + [frame]))
            else Represents(c, limit, next, on, false, if on then frame + [b] else frame, pushed)
  {
  }

  class SlipDecoder {
    const settings: Settings
    const limit: Option<nat>
    const codes: array<int>
    const bytes: ByteQueue
    var started: bool
    var escaped: bool
    var pushed: seq<Bytes>
    ghost var input: Bytes
    ghost var failed: bool

    ghost predicate Valid()
      reads this, codes, bytes
    {
      && Ready()
      && if failed then Decode(settings, limit, Fresh(settings), input) == Overflowed(pushed)
         else Decode(settings, limit, Fresh(settings), input)
              == Running(Decoder(settings.start.None? || started, escaped, bytes.Contents()), pushed)
    }

    constructor (settings: Settings, limit: Option<nat>)
      ensures Valid() && this.settings == settings && this.limit == limit && input == [] && !failed
      ensures fresh(codes) && fresh(bytes)
    {
      this.settings, this.limit := settings, limit;
      codes := new int[256](_ => -1);
      bytes := new ByteQueue();
      started, escaped, pushed := false, false, [];
      input, failed := [], false;
      new;
      codes[settings.escEnd] := settings.end;
      codes[settings.escEsc] := settings.esc;
      if settings.StartEscaped() { codes[settings.escStart.value] := settings.start.value; }
    }

    /** `#append`: refuses a frame that would exceed the limit. */
    method Append(buffer: Bytes) returns (ok: bool)
      requires bytes.Valid()
      modifies bytes
      ensures bytes.Valid() && ok == !TooLong(limit, |old(bytes.Contents())| + |buffer|)
      ensures bytes.Contents() == if ok then old(bytes.Contents()) + buffer else old(bytes.Contents())
    {
      if TooLong(limit, bytes.length + |buffer|) { return false; }
      bytes.Append(buffer);
      return true;
    }

    /** Append the rest of a frame and push it. */
    method Emit(buffer: Bytes) returns (ok: bool)
      requires bytes.Valid()
      modifies bytes, this`pushed
      ensures bytes.Valid() && ok == !TooLong(limit, |old(bytes.Contents())| + |buffer|)
      ensures ok ==> bytes.Contents() == [] && pushed == old(pushed) + [old(bytes.Contents()) + buffer]
      ensures !ok ==> pushed == old(pushed)
    {
      ok := Append(buffer);
      if !ok { return; }
      ghost var frame := bytes.Contents();
      assert frame[..|frame|] == frame && frame[|frame|..] == [];
      var taken := bytes.Take(bytes.length);
      pushed := pushed + [taken.value];
    }

    /** `#overflow` releases the buffered payload. */
    method Overflow(ghost chunk: Bytes)
      requires Ready() && Decode(settings, limit, Fresh(settings), input + chunk) == Overflowed(pushed)
      modifies this`input, this`failed, bytes
      ensures Valid() && failed && input == old(input) + chunk
    {
      bytes.Clear();
      failed := true;
      input := input + chunk;
    }

    ghost predicate Ready()
      reads this, codes, bytes
    {
      codes.Length == 256 && (forall b: byte :: codes[b] == settings.DecodeCode(b)) && bytes.Valid()
    }

    /** The byte after an ESC; `ok` is false when a frame to be emitted is too long. */
    method DecodeEscaped(b: byte, decoded: array<byte>, frameStart: nat, size: nat, ghost r: Decoding)
      returns (ok: bool, newStart: nat, newSize: nat)
      requires Ready() && frameStart <= size < decoded.Length && (decoded as object) != codes
      requires settings.start.None? ==> started
      requires Represents(settings, limit, r, started, true,
                          bytes.Contents() + decoded[frameStart..size], pushed)
      modifies this`pushed, bytes, decoded
      ensures Ready() && newStart <= newSize <= size + 1
      ensures ok ==> Represents(settings, limit, Step(settings, limit, r, b), started, false,
                                bytes.Contents() + decoded[newStart..newSize], pushed)
      ensures !ok ==> r == Overflowed(pushed)
    {
      hide Step, ByteQueue.Valid, Settings.DecodeCode, ByteQueue.Contents;
      EscapedRepresents(settings, limit, r, started, bytes.Contents() + decoded[frameStart..size], pushed, b);
      hide Represents;
      ok, newStart, newSize := true, frameStart, size;
      var code := codes[b];
      if code == -1 {
        ok := Emit(decoded[frameStart..size]);
        if !ok { return; }
        newStart := size;
      }
      if started {
        var value: byte := if code == -1 then b else code;
        ghost var kept := decoded[newStart..size];
        decoded[size] := value;
        newSize := size + 1;
        assert decoded[newStart..newSize] == kept + [value];
        assert bytes.Contents() + (kept + [value]) == (bytes.Contents() + kept) + [value];
      }
    }

    /** One iteration of the byte loop. */
    method DecodeByte(b: byte, decoded: array<byte>, frameStart: nat, size: nat, ghost r: Decoding)
      returns (ok: bool, newStart: nat, newSize: nat)
      requires Ready() && frameStart <= size < decoded.Length && (decoded as object) != codes
      requires Represents(settings, limit, r, started, escaped,
                          bytes.Contents() + decoded[frameStart..size], pushed)
      modifies this`started, this`escaped, this`pushed, bytes, decoded
      ensures Ready() && newStart <= newSize <= size + 1
      ensures ok ==> Represents(settings, limit, Step(settings, limit, r, b), started, escaped,
                                bytes.Contents() + decoded[newStart..newSize], pushed)
      ensures !ok ==> r == Overflowed(pushed)
    {
      hide Step, ByteQueue.Valid, Settings.DecodeCode, ByteQueue.Contents;
      if settings.start.None? { started := true; }
      if escaped {
        escaped := false;
        ok, newStart, newSize := DecodeEscaped(b, decoded, frameStart, size, r);
        return;
      }
      PlainRepresents(settings, limit, r, started, bytes.Contents() + decoded[frameStart..size], pushed, b);
      hide Represents;
      ok, newStart, newSize := true, frameStart, size;
      if settings.start == Some(b) {
        started := true;
      } else if b == settings.esc {
        escaped := true;
      } else if b == settings.end {
        ok := Emit(decoded[frameStart..size]);
        if !ok { return; }
        newStart := size;
        started := false;
      } else if started {
        ghost var kept := decoded[newStart..size];
        decoded[size] := b;
        newSize := size + 1;
        assert decoded[newStart..newSize] == kept + [b];
        assert bytes.Contents() + (kept + [b]) == (bytes.Contents() + kept) + [b];
      }
    }

    /** The byte loop.  Decoded bytes are collected in one buffer of the size of the chunk. */
    method TransformBytes(chunk: Bytes) returns (ok: bool)
      requires Valid() && !failed
      modifies this, bytes
      ensures Valid() && failed == !ok && input == old(input) + chunk
    {
      hide Decode, Step, ByteQueue.Valid, Settings.DecodeCode;
      var decoded := new byte[|chunk|];
      var size: nat, frameStart: nat := 0, 0;
      ghost var before := input;
      assert before + chunk[..0] == before && decoded[0..0] == [];
      assert bytes.Contents() + [] == bytes.Contents();
      NotTooLong(settings, limit, before);
      for i := 0 to |chunk|
        invariant frameStart <= size <= i && Ready() && input == before && !failed
        invariant Represents(settings, limit, Decode(settings, limit, Fresh(settings), before + chunk[..i]),
                             started, escaped, bytes.Contents() + decoded[frameStart..size], pushed)
      {
        ghost var r := Decode(settings, limit, Fresh(settings), before + chunk[..i]);
        DecodeSnoc(settings, limit, Fresh(settings), before + chunk[..i], chunk[i]);
        assert before + chunk[..i + 1] == (before + chunk[..i]) + [chunk[i]];
        ok, frameStart, size := DecodeByte(chunk[i], decoded, frameStart, size, r);
        if !ok {
          FailsForGood(settings, limit, before, chunk, i, pushed);
          Overflow(chunk);
          return;
        }
      }
      assert chunk[..|chunk|] == chunk;
      ok := Append(decoded[frameStart..size]);
      if !ok {
        Overflow(chunk);
        return;
      }
      input := input + chunk;
    }

    /** The native search on a large chunk that holds no ESC and starts outside an escape. */
    method TransformBulk(chunk: Bytes) returns (ok: bool)
      requires Valid() && !failed
      requires settings.start.None? && !escaped && settings.esc !in chunk
      modifies this, bytes
      ensures Valid() && failed == !ok && input == old(input) + chunk
      ensures started == old(started) && escaped == old(escaped)
    {
      hide Decode, Step, ByteQueue.Valid, Settings.DecodeCode, ByteQueue.Contents, IndexOf, OccursAt;
      var offset: nat := 0;
      ghost var before, fresh0 := input, Fresh(settings);
      assert before + chunk[..0] == before;
      NotTooLong(settings, limit, before);
      var end := IndexOf(chunk, [settings.end], 0);
      while end != -1
        invariant Ready() && offset <= |chunk| && input == before && !failed
        invariant started == old(started) && escaped == old(escaped)
        invariant end == IndexOf(chunk, [settings.end], offset)
        invariant Decode(settings, limit, fresh0, before + chunk[..offset])
               == Running(Decoder(true, false, bytes.Contents()), pushed)
        invariant !TooLong(limit, bytes.length)
        decreases |chunk| - offset, end
      {
        FoundEnd(settings, limit, before, chunk, offset, bytes.Contents(), pushed);
        var ok := Emit(chunk[offset..end]);
        if !ok {
          Overflow(chunk);
          return false;
        }
        offset := end + 1;
        end := IndexOf(chunk, [settings.end], offset);
      }
      NoMoreEnds(settings, limit, before, chunk, offset, bytes.Contents(), pushed);
      ok := Append(if offset > 0 then chunk[offset..] else chunk);
      if !ok {
        Overflow(chunk);
        return;
      }
      input := input + chunk;
    }

    /** One chunk: both paths give the pushes, the buffer, the escape state and the verdict of the
      reference decoder. */
    method Transform(chunk: Bytes) returns (ok: bool)
      requires Valid() && !failed
      modifies this, bytes
      ensures Valid() && failed == !ok && input == old(input) + chunk
    {
      hide *;
      if |chunk| >= 256 && settings.start.None? && !escaped && settings.esc !in chunk {
        ok := TransformBulk(chunk);
      } else {
        ok := TransformBytes(chunk);
      }
    }

    /** The end of the input. */
    method Flush()
      requires Valid() && !failed
      modifies this, bytes
      ensures input == old(input) && Decoded(settings, limit, input) == Outcome(pushed, false)
    {
      hide Decode, ByteQueue.Valid, ByteQueue.Contents;
      ghost var tail := bytes.Contents();
      assert tail[..|tail|] == tail;
      var last := bytes.Take(bytes.length);
      pushed := pushed + [last.value];
    }

    /** The buffer never exceeds the limit. */
    lemma BufferIsBounded()
      requires Valid() && !failed
      ensures bytes.Valid() && (limit.Some? ==> |bytes.Contents()| <= limit.value)
    {
      NotTooLong(settings, limit, input);
    }
  }

  lemma {:induction false} NotTooLong(c: Settings, limit: Option<nat>, s: Bytes)
    ensures var r := Decode(c, limit, Fresh(c), s); r.Running? ==> !TooLong(limit, |r.state.frame|)
  {
    if s != [] { NotTooLong(c, limit, s[..|s| - 1]); }
  }

  lemma FailsForGood(c: Settings, limit: Option<nat>, before: Bytes, chunk: Bytes, i: nat, pushed: seq<Bytes>)
    requires i <= |chunk| && Decode(c, limit, Fresh(c), before + chunk[..i]) == Overflowed(pushed)
    ensures Decode(c, limit, Fresh(c), before + chunk) == Overflowed(pushed)
  {
    assert before + chunk == (before + chunk[..i]) + chunk[i..];
    DecodeAppend(c, limit, Fresh(c), before + chunk[..i], chunk[i..]);
    OverflowStays(c, limit, pushed, chunk[i..]);
  }

  // ---- The bulk path -------------------------------------------------------------------------------

  lemma NotFound(chunk: Bytes, b: byte, from: nat, to: nat)
    requires from <= to <= |chunk|
    requires var i := IndexOf(chunk, [b], from); i == -1 || to <= i
    ensures b !in chunk[from..to]
  {
    hide IndexOf;
    forall k | from <= k < to ensures chunk[k] != b {
      assert !OccursAt(chunk, [b], k);
      assert chunk[k..k + 1] == [chunk[k]];
    }
  }

  /** The next END: what precedes it completes the frame. */
  lemma FoundEnd(c: Settings, limit: Option<nat>, before: Bytes, chunk: Bytes, offset: nat,
                 frame: Bytes, pushed: seq<Bytes>)
    requires offset <= |chunk| && c.start.None? && c.esc !in chunk && !TooLong(limit, |frame|)
    requires Decode(c, limit, Fresh(c), before + chunk[..offset]) == Running(Decoder(true, false, frame), pushed)
    requires IndexOf(chunk, [c.end], offset) != -1
    ensures var end := IndexOf(chunk, [c.end], offset);
            && offset <= end < |chunk|
            && (if TooLong(limit, |frame + chunk[offset..end]|)
                then Decode(c, limit, Fresh(c), before + chunk) == Overflowed(pushed)
                else Decode(c, limit, Fresh(c), before + chunk[..end + 1])
                     == Running(Decoder(true, false, []), pushed + [frame + chunk[offset..end]]))
  {
    hide Decode, IndexOf, Settings.DecodeCode;
    var end := IndexOf(chunk, [c.end], offset);
    assert chunk[end..end + 1] == [c.end];
    assert chunk[end] == c.end && c.esc != c.end;
    var part := chunk[offset..end];
    NotFound(chunk, c.end, offset, end);
    DecodePlain(c, limit, Decoder(true, false, frame), pushed, part);
    assert before + chunk[..end] == (before + chunk[..offset]) + part;
    DecodeAppend(c, limit, Fresh(c), before + chunk[..offset], part);
    if TooLong(limit, |frame + part|) {
      FailsForGood(c, limit, before, chunk, end, pushed);
    } else {
      assert before + chunk[..end + 1] == (before + chunk[..end]) + [c.end];
      DecodeSnoc(c, limit, Fresh(c), before + chunk[..end], c.end);
    }
  }

  /** What follows the last END extends the next frame. */
  lemma NoMoreEnds(c: Settings, limit: Option<nat>, before: Bytes, chunk: Bytes, offset: nat,
                   frame: Bytes, pushed: seq<Bytes>)
    requires offset <= |chunk| && c.start.None? && c.esc !in chunk && !TooLong(limit, |frame|)
    requires Decode(c, limit, Fresh(c), before + chunk[..offset]) == Running(Decoder(true, false, frame), pushed)
    requires IndexOf(chunk, [c.end], offset) == -1
    ensures Decode(c, limit, Fresh(c), before + chunk)
         == if TooLong(limit, |frame + chunk[offset..]|) then Overflowed(pushed)
            else Running(Decoder(true, false, frame + chunk[offset..]), pushed)
  {
    hide Decode, IndexOf, Step;
    var part := chunk[offset..];
    NotFound(chunk, c.end, offset, |chunk|);
    assert chunk[offset..|chunk|] == part;
    DecodePlain(c, limit, Decoder(true, false, frame), pushed, part);
    assert before + chunk == (before + chunk[..offset]) + part;
    DecodeAppend(c, limit, Fresh(c), before + chunk[..offset], part);
  }

  // ---- Whole streams -------------------------------------------------------------------------------

  /** The pushes and the verdict for a whole input: the flush pushes the unfinished frame. */
  function Decoded(c: Settings, limit: Option<nat>, s: Bytes): Outcome {
    match Decode(c, limit, Fresh(c), s)
    case Running(state, pushed) => Outcome(pushed + [state.frame], false)
    case Overflowed(pushed) => Outcome(pushed, true)
  }

  /** A whole stream in chunks, well-formed or not: pushes and verdict depend only on the
    concatenation.  After a failure Node destroys the decoder and no further chunk arrives. */
  method DecodeStream(settings: Settings, limit: Option<nat>, chunks: seq<Bytes>) returns (outcome: Outcome)
    ensures outcome == Decoded(settings, limit, Flat(chunks))
  {
    hide Decode, Step, ByteQueue.Valid, ByteQueue.Contents, Settings.DecodeCode, Fresh;
    var decoder := new SlipDecoder(settings, limit);
    assert Flat(chunks[..0]) == [];
    for i := 0 to |chunks|
      invariant decoder.Valid() && !decoder.failed && decoder.settings == settings && decoder.limit == limit
      invariant fresh(decoder) && fresh(decoder.bytes) && fresh(decoder.codes)
      invariant decoder.input == Flat(chunks[..i])
    {
      FlatSnoc(chunks[..i], chunks[i]);
      assert chunks[..i + 1] == chunks[..i] + [chunks[i]];
      var ok := decoder.Transform(chunks[i]);
      if !ok {
        var all, part := Flat(chunks), Flat(chunks[..i + 1]);
        FlatAppend(chunks[..i + 1], chunks[i + 1..]);
        assert chunks[..i + 1] + chunks[i + 1..] == chunks;
        assert part[..|part|] == part && [] + part == part && [] + all == all && all[..|part|] == part;
        FailsForGood(settings, limit, [], all, |part|, decoder.pushed);
        return Outcome(decoder.pushed, true);
      }
    }
    assert chunks[..|chunks|] == chunks;
    decoder.Flush();
    return Outcome(decoder.pushed, false);
  }

  /** A stream of payloads through one encoder. */
  method EncodeStream(settings: Settings, payloads: seq<Bytes>) returns (wire: Bytes)
    ensures wire == Wire(settings, payloads)
  {
    hide Escape, Escapes, Settings.EncodeCode;
    var encoder := new SlipEncoder(settings);
    wire := [];
    for i := 0 to |payloads|
      invariant encoder.Valid() && encoder.settings == settings && wire == Wire(settings, payloads[..i])
    {
      assert payloads[..i + 1][..i] == payloads[..i];
      var output := encoder.Transform(payloads[i]);
      if output.Some? { wire := wire + output.value; }
    }
    assert payloads[..|payloads|] == payloads;
  }
}
