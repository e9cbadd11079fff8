/** Packets that announce their own length. */
module PacketLength {
  import opened Common
  import opened ByteQueues

  datatype Settings = Settings(
    delimiters: set<nat>, delimiterBytes: nat, lengthBytes: nat,
    lengthOffset: nat, packetOverhead: nat, maxLen: nat)
  {
    /** What the constructor checks. */
    predicate Valid() {
      delimiters != {} && 1 <= delimiterBytes <= 6 && 1 <= lengthBytes <= 6
    }

    function HeaderLength(): (n: nat)
      ensures n > delimiterBytes && n >= lengthOffset + lengthBytes
      ensures n == delimiterBytes + 1 || n == lengthOffset + lengthBytes
    {
      Max(delimiterBytes + 1, lengthOffset + lengthBytes)
    }
  }

  /** Buffer.readUIntBE. */
  function BigEndian(s: Bytes): nat {
    if s == [] then 0 else 256 * BigEndian(s[..|s| - 1]) + s[|s| - 1]
  }

  /** Buffer.readUIntLE. */
  function LittleEndian(s: Bytes): nat {
    if s == [] then 0 else s[0] + 256 * LittleEndian(s[1..])
  }

  function Power256(n: nat): (p: nat)
    ensures p > 0
  {
    if n == 0 then 1 else 256 * Power256(n - 1)
  }

  /** Most significant byte first: what comes before `b` weighs 256 to the power of the length of `b`. */
  lemma {:induction false} BigEndianValue(a: Bytes, b: Bytes, x: byte)
    ensures BigEndian([x]) == x
    ensures BigEndian(a + b) == BigEndian(a) * Power256(|b|) + BigEndian(b)
    decreases |b|
  {
    assert [x][..0] == [];
    if b == [] {
      assert a + b == a;
    } else {
      var front, last := b[..|b| - 1], b[|b| - 1];
      assert (a + b)[..|a + b| - 1] == a + front;
      BigEndianValue(a, front, x);
      calc {
        BigEndian(a + b);
        256 * (BigEndian(a) * Power256(|front|) + BigEndian(front)) + last;
        BigEndian(a) * (256 * Power256(|front|)) + (256 * BigEndian(front) + last);
        BigEndian(a) * Power256(|b|) + BigEndian(b);
      }
    }
  }

  /** Least significant byte first. */
  lemma {:induction false} LittleEndianValue(a: Bytes, b: Bytes, x: byte)
    ensures LittleEndian([x]) == x
    ensures LittleEndian(a + b) == LittleEndian(a) + Power256(|a|) * LittleEndian(b)
    decreases |a|
  {
    assert [x][1..] == [];
    if a == [] {
      assert a + b == b;
    } else {
      assert (a + b)[1..] == a[1..] + b;
      LittleEndianValue(a[1..], b, x);
      calc {
        LittleEndian(a + b);
        a[0] + 256 * (LittleEndian(a[1..]) + Power256(|a[1..]|) * LittleEndian(b));
        (a[0] + 256 * LittleEndian(a[1..])) + (256 * Power256(|a[1..]|)) * LittleEndian(b);
        LittleEndian(a) + Power256(|a|) * LittleEndian(b);
      }
    }
  }

  /** A number of `|s|` bytes. */
  lemma {:induction false} EndianRange(s: Bytes)
    ensures BigEndian(s) < Power256(|s|) && LittleEndian(s) < Power256(|s|)
    decreases |s|
  {
    if s != [] {
      EndianRange(s[..|s| - 1]);
      EndianRange(s[1..]);
    }
  }

  predicate Delimited(c: Settings, s: Bytes) {
    c.delimiterBytes <= |s| && BigEndian(s[..c.delimiterBytes]) in c.delimiters
  }

  /** The size of the packet that begins with `s`. */
  function PacketSize(c: Settings, s: Bytes): (n: nat)
    requires c.HeaderLength() <= |s|
    ensures c.HeaderLength() <= n <= Max(c.HeaderLength(), c.maxLen + c.packetOverhead)
  {
    var payload := LittleEndian(s[c.lengthOffset..c.lengthOffset + c.lengthBytes]);
    if payload > c.maxLen then c.HeaderLength() else Max(c.HeaderLength(), payload + c.packetOverhead)
  }

  /** The header alone is the packet exactly when it announces too much or no more than itself;
    otherwise the packet is exactly what it announces and the overhead. */
  lemma PacketSizeMeans(c: Settings, s: Bytes)
    requires c.HeaderLength() <= |s|
    ensures var announced := LittleEndian(s[c.lengthOffset..c.lengthOffset + c.lengthBytes]);
            && (PacketSize(c, s) == c.HeaderLength()
                <==> announced > c.maxLen || announced + c.packetOverhead <= c.HeaderLength())
            && (PacketSize(c, s) != c.HeaderLength() ==> PacketSize(c, s) == announced + c.packetOverhead)
  {
  }

  // ---- What a parse is -----------------------------------------------------------------------------

  /** What becomes of a stretch of the input. */
  datatype Piece = Skipped(skipped: byte) | Packet(packet: Bytes)
  {
    function Content(): Bytes { if Skipped? then [skipped] else packet }
  }

  datatype Parsed = Parsed(pieces: seq<Piece>, rest: Bytes)

  function Joined(pieces: seq<Piece>): Bytes {
    if pieces == [] then [] else pieces[0].Content() + Joined(pieces[1..])
  }

  function Packets(pieces: seq<Piece>): seq<Bytes> {
    if pieces == [] then []
    else Packets(pieces[..|pieces| - 1])
         + (match pieces[|pieces| - 1] case Skipped(_) => [] case Packet(p) => [p])
  }

  /** A packet starts with a delimiter and has the size its header announces. */
  predicate IsPacket(c: Settings, p: Bytes) {
    Delimited(c, p) && c.HeaderLength() <= |p| && |p| == PacketSize(c, p)
  }

  /** More input is needed before anything can be said about `s`. */
  predicate Undecided(c: Settings, s: Bytes) {
    |s| < c.delimiterBytes
    || (Delimited(c, s) && (|s| < c.HeaderLength() || |s| < PacketSize(c, s)))
  }

  /** `pieces` and `rest` describe `s`: nothing is lost, bytes are skipped exactly where no
    delimiter starts, packets are packets, and the rest is undecided. */
  ghost predicate Describes(c: Settings, s: Bytes, r: Parsed) {
    && Joined(r.pieces) + r.rest == s
    && (forall i :: 0 <= i < |r.pieces| ==>
          match r.pieces[i]
          case Skipped(_) => var t := Joined(r.pieces[i..]) + r.rest; c.delimiterBytes <= |t| && !Delimited(c, t)
          case Packet(p) => IsPacket(c, p))
    && Undecided(c, r.rest)
  }

  // ---- The parse -----------------------------------------------------------------------------------

  function Parse(c: Settings, s: Bytes): Parsed
    requires c.Valid()
    decreases |s|
  {
    if Undecided(c, s) then Parsed([], s)
    else if !Delimited(c, s) then
      var next := Parse(c, s[1..]);
      Parsed([Skipped(s[0])] + next.pieces, next.rest)
    else
      var n := PacketSize(c, s);
      var next := Parse(c, s[n..]);
      Parsed([Packet(s[..n])] + next.pieces, next.rest)
  }

  lemma WaitStep(c: Settings, s: Bytes)
    requires c.Valid() && Undecided(c, s)
    ensures Parse(c, s) == Parsed([], s)
  {
  }

  lemma SkipStep(c: Settings, s: Bytes)
    requires c.Valid() && c.delimiterBytes <= |s| && !Delimited(c, s)
    ensures var next := Parse(c, s[1..]); Parse(c, s) == Parsed([Skipped(s[0])] + next.pieces, next.rest)
  {
  }

  lemma PacketStep(c: Settings, s: Bytes)
    requires c.Valid() && Delimited(c, s) && c.HeaderLength() <= |s| && PacketSize(c, s) <= |s|
    ensures var n := PacketSize(c, s); var next := Parse(c, s[n..]);
            Parse(c, s) == Parsed([Packet(s[..n])] + next.pieces, next.rest)
  {
  }

  lemma SizeOfPrefix(c: Settings, s: Bytes, y: Bytes)
    requires c.Valid()
    ensures c.delimiterBytes <= |s| ==> Delimited(c, s + y) == Delimited(c, s)
    ensures c.HeaderLength() <= |s| ==> PacketSize(c, s + y) == PacketSize(c, s)
  {
    var d := c.delimiterBytes;
    if d <= |s| { assert (s + y)[..d] == s[..d]; }
    if c.HeaderLength() <= |s| {
      var i, j := c.lengthOffset, c.lengthOffset + c.lengthBytes;
      assert (s + y)[i..j] == s[i..j];
    }
  }

  /** The parse describes the input... */
  lemma {:induction false} ParseDescribes(c: Settings, s: Bytes)
    requires c.Valid()
    ensures Describes(c, s, Parse(c, s))
    decreases |s|
  {
    hide BigEndian, LittleEndian, Settings.HeaderLength, PacketSize, Describes, Parse, Joined;
    if Undecided(c, s) {
      WaitStep(c, s);
      DescribesNothing(c, s);
    } else if Delimited(c, s) {
      var n := PacketSize(c, s);
      assert s == s[..n] + s[n..];
      PacketStep(c, s);
      SizeOfPrefix(c, s[..n], s[n..]);
      ParseDescribes(c, s[n..]);
      DescribesCons(c, Packet(s[..n]), s[n..], Parse(c, s[n..]));
    } else {
      assert s == [s[0]] + s[1..];
      SkipStep(c, s);
      ParseDescribes(c, s[1..]);
      DescribesCons(c, Skipped(s[0]), s[1..], Parse(c, s[1..]));
    }
  }

  lemma DescribesNothing(c: Settings, s: Bytes)
    requires Undecided(c, s)
    ensures Describes(c, s, Parsed([], s))
  {
  }

  lemma DescribesCons(c: Settings, first: Piece, tail: Bytes, next: Parsed)
    requires Describes(c, tail, next)
    requires match first
             case Skipped(b) => c.delimiterBytes <= |[b] + tail| && !Delimited(c, [b] + tail)
             case Packet(p) => IsPacket(c, p)
    ensures Describes(c, first.Content() + tail, Parsed([first] + next.pieces, next.rest))
  {
    hide IsPacket, Delimited, Undecided;
    var pieces := [first] + next.pieces;
    assert pieces[1..] == next.pieces && pieces[0..] == pieces;
    assert first.Content() + Joined(next.pieces) + next.rest == first.Content() + tail;
    forall i | 0 <= i < |pieces|
      ensures match pieces[i]
              case Skipped(_) => var t := Joined(pieces[i..]) + next.rest; c.delimiterBytes <= |t| && !Delimited(c, t)
              case Packet(p) => IsPacket(c, p)
    {
      if i > 0 { assert pieces[i..] == next.pieces[i - 1..]; }
    }
  }

  /** ... and nothing else does. */
  lemma {:induction false} ParseIsUnique(c: Settings, s: Bytes, r: Parsed)
    requires c.Valid() && Describes(c, s, r)
    ensures r == Parse(c, s)
    decreases |r.pieces|
  {
    hide BigEndian, LittleEndian, Settings.HeaderLength, PacketSize, Parse, Describes, Joined, Undecided, Delimited;
    if r.pieces == [] {
      DescribesWait(c, s, r);
      WaitStep(c, s);
    } else {
      var more := Parsed(r.pieces[1..], r.rest);
      var tail := Joined(more.pieces) + r.rest;
      DescribesTail(c, s, r);
      ParseIsUnique(c, tail, more);
      FirstPiece(c, s, r, tail);
      assert r.pieces == [r.pieces[0]] + more.pieces;
      if r.pieces[0].Packet? { PacketStep(c, s); } else { SkipStep(c, s); }
    }
  }

  lemma DescribesWait(c: Settings, s: Bytes, r: Parsed)
    requires Describes(c, s, r) && r.pieces == []
    ensures r.rest == s && Undecided(c, s)
  {
    hide Undecided;
    assert [] + r.rest == r.rest;
  }

  /** The first piece is where the parse would put it. */
  lemma FirstPiece(c: Settings, s: Bytes, r: Parsed, tail: Bytes)
    requires c.Valid() && Describes(c, s, r) && r.pieces != [] && tail == Joined(r.pieces[1..]) + r.rest
    ensures match r.pieces[0]
            case Skipped(b) => c.delimiterBytes <= |s| && !Delimited(c, s) && s[0] == b && s[1..] == tail
            case Packet(p) => Delimited(c, s) && c.HeaderLength() <= |s| && PacketSize(c, s) == |p| <= |s|
                              && s[..|p|] == p && s[|p|..] == tail
  {
    hide Delimited, Undecided, Settings.HeaderLength, PacketSize, BigEndian, LittleEndian;
    var first := r.pieces[0];
    assert r.pieces[0..] == r.pieces;
    assert s == first.Content() + tail;
    if first.Packet? {
      SizeOfPrefix(c, first.packet, tail);
      PacketMeans(c, first.packet);
    }
  }

  lemma PacketMeans(c: Settings, p: Bytes)
    requires IsPacket(c, p)
    ensures c.delimiterBytes <= |p| && Delimited(c, p) && c.HeaderLength() <= |p| && |p| == PacketSize(c, p)
  {
  }

  lemma DescribesTail(c: Settings, s: Bytes, r: Parsed)
    requires Describes(c, s, r) && r.pieces != []
    ensures Describes(c, Joined(r.pieces[1..]) + r.rest, Parsed(r.pieces[1..], r.rest))
  {
    hide IsPacket, Delimited, Undecided, Joined;
    var pieces := r.pieces[1..];
    forall i | 0 <= i < |pieces|
      ensures match pieces[i]
              case Skipped(_) => var t := Joined(pieces[i..]) + r.rest; c.delimiterBytes <= |t| && !Delimited(c, t)
              case Packet(p) => IsPacket(c, p)
    {
      assert pieces[i] == r.pieces[i + 1] && pieces[i..] == r.pieces[i + 1..];
    }
  }

  /** Splitting the input anywhere does not change the parse. */
  lemma {:induction false} ParseContinues(c: Settings, x: Bytes, y: Bytes)
    requires c.Valid()
    ensures var first := Parse(c, x); var second := Parse(c, first.rest + y);
            Parse(c, x + y) == Parsed(first.pieces + second.pieces, second.rest)
    decreases |x|
  {
    hide BigEndian, LittleEndian, Settings.HeaderLength, PacketSize, Parse;
    if Undecided(c, x) {
      WaitStep(c, x);
      var second := Parse(c, x + y);
      assert [] + second.pieces == second.pieces;
      return;
    }
    SizeOfPrefix(c, x, y);
    var n := if Delimited(c, x) then PacketSize(c, x) else 1;
    assert (x + y)[n..] == x[n..] + y && (x + y)[..n] == x[..n] && (x + y)[0] == x[0];
    ParseContinues(c, x[n..], y);
    if Delimited(c, x) {
      PacketStep(c, x);
      PacketStep(c, x + y);
    } else {
      SkipStep(c, x);
      SkipStep(c, x + y);
    }
    var next := Parse(c, x[n..]);
    var more := Parse(c, next.rest + y).pieces;
    var first := Parse(c, x).pieces[..1];
    assert first + (next.pieces + more) == (first + next.pieces) + more;
  }

  /** Fewer bytes are retained than one packet can have. */
  lemma {:induction false} RetainedBytes(c: Settings, s: Bytes)
    requires c.Valid()
    ensures |Parse(c, s).rest| < Max(c.HeaderLength(), c.maxLen + c.packetOverhead)
  {
    ParseDescribes(c, s);
  }

  lemma PacketsSnoc(pieces: seq<Piece>, last: Piece)
    ensures Packets(pieces + [last]) == Packets(pieces) + (if last.Packet? then [last.packet] else [])
  {
    assert (pieces + [last])[..|pieces|] == pieces;
  }

  /** More input, while `pieces` is what has been produced and `buffered` what is left over. */
  lemma Appended(c: Settings, s: Bytes, pieces: seq<Piece>, buffered: Bytes, chunk: Bytes)
    requires c.Valid() && Undecided(c, buffered)
    requires var next := Parse(c, buffered); Parse(c, s) == Parsed(pieces + next.pieces, next.rest)
    ensures var next := Parse(c, buffered + chunk); Parse(c, s + chunk) == Parsed(pieces + next.pieces, next.rest)
  {
    assert pieces + [] == pieces;
    ParseContinues(c, s, chunk);
  }

  /** A delimiter of two bytes, most significant first, and a length of two bytes, least significant
    first: noise, a packet that announces 258 bytes but may have 3 at most, and a packet of 7. */
  lemma KnownPackets()
    ensures var c := Settings({0xAA55}, 2, 2, 2, 5, 3);
            Parse(c, [0x55, 0xAA, 0x55, 0x02, 0x01, 0xAA, 0x55, 0x02, 0x00, 0x07, 0x08, 0x09, 0xAA])
            == Parsed([Skipped(0x55), Packet([0xAA, 0x55, 0x02, 0x01]), Packet([0xAA, 0x55, 0x02, 0x00, 0x07, 0x08, 0x09])],
                      [0xAA])
  {
    hide Parse, BigEndian, LittleEndian;
    var c := Settings({0xAA55}, 2, 2, 2, 5, 3);
    var second: Bytes := [0xAA, 0x55, 0x02, 0x00, 0x07, 0x08, 0x09];
    LongPacket(c, second, [0xAA]);
    ShortPacket(c, [0xAA, 0x55, 0x02, 0x01], second + [0xAA]);
    WaitStep(c, [0xAA]);
    TwoBytes(0x55, 0xAA);
    var s: Bytes := [0x55, 0xAA, 0x55, 0x02, 0x01, 0xAA, 0x55, 0x02, 0x00, 0x07, 0x08, 0x09, 0xAA];
    assert s[..2] == [0x55, 0xAA] && s[1..] == [0xAA, 0x55, 0x02, 0x01] + (second + [0xAA]);
    SkipStep(c, s);
  }

  lemma LongPacket(c: Settings, p: Bytes, rest: Bytes)
    requires c == Settings({0xAA55}, 2, 2, 2, 5, 3) && |p| == 7 && p[..4] == [0xAA, 0x55, 0x02, 0x00]
    ensures Parse(c, p + rest) == Parsed([Packet(p)] + Parse(c, rest).pieces, Parse(c, rest).rest)
  {
    hide Parse, BigEndian, LittleEndian;
    var s := p + rest;
    TwoBytes(0xAA, 0x55);
    TwoBytes(0x02, 0x00);
    assert s[..2] == p[..4][..2] == [0xAA, 0x55] && s[2..4] == p[..4][2..4] == [0x02, 0x00];
    PacketStep(c, s);
    assert s[..7] == p && s[7..] == rest;
  }

  lemma ShortPacket(c: Settings, p: Bytes, rest: Bytes)
    requires c == Settings({0xAA55}, 2, 2, 2, 5, 3) && p == [0xAA, 0x55, 0x02, 0x01]
    ensures Parse(c, p + rest) == Parsed([Packet(p)] + Parse(c, rest).pieces, Parse(c, rest).rest)
  {
    hide Parse, BigEndian, LittleEndian;
    var s := p + rest;
    TwoBytes(0xAA, 0x55);
    TwoBytes(0x02, 0x01);
    assert s[..2] == [0xAA, 0x55] && s[2..4] == [0x02, 0x01];
    PacketStep(c, s);
    assert s[..4] == p && s[4..] == rest;
  }

  lemma TwoBytes(a: byte, b: byte)
    ensures BigEndian([a, b]) == 256 * a + b && LittleEndian([a, b]) == a + 256 * b
  {
    BigEndianValue([a], [b], a);
    LittleEndianValue([a], [b], a);
    BigEndianValue([a], [b], b);
    LittleEndianValue([a], [b], b);
    assert [a] + [b] == [a, b] && Power256(1) == 256 * Power256(0);
  }

  // ---- The parser ----------------------------------------------------------------------------------

  class PacketLengthParser {
    const settings: Settings
    const bytes: ByteQueue
    var started: bool
    var length: nat
    var pushed: seq<Bytes>
    ghost var input: Bytes
    ghost var pieces: seq<Piece>

    /** Between two steps: `pieces` is what the parse has produced so far of `s`. */
    ghost predicate Progress(s: Bytes)
      reads this, bytes
    {
      && settings.Valid() && bytes.Valid()
      && (started ==> Delimited(settings, bytes.Contents()))
      && (length > 0 ==> started && settings.HeaderLength() <= |bytes.Contents()|
                         && length == PacketSize(settings, bytes.Contents()))
      && pushed == Packets(pieces)
      && (var next := Parse(settings, bytes.Contents());
          Parse(settings, s) == Parsed(pieces + next.pieces, next.rest))
    }

    ghost predicate Valid()
      reads this, bytes
    {
      && settings.Valid() && bytes.Valid()
      && Progress(input)
      && Undecided(settings, bytes.Contents())
    }

    /** The buffer is the undecided rest and the pushes are the packets of the whole input. */
    lemma Meaning()
      requires Valid()
      ensures settings.Valid() && bytes.Valid()
      ensures bytes.Contents() == Parse(settings, input).rest
      ensures pushed == Packets(Parse(settings, input).pieces)
    {
      assert pieces + [] == pieces;
    }

    constructor (settings: Settings)
      requires settings.Valid()
      ensures Valid() && this.settings == settings && input == [] && pushed == [] && fresh(bytes)
    {
      this.settings := settings;
      bytes := new ByteQueue();
      started, length, pushed, input, pieces := false, 0, [], [], [];
    }

    /** Skip to the next delimiter. */
    method Scan(ghost s: Bytes)
      requires Progress(s) && !started
      modifies this`started, this`pieces, bytes
      ensures Progress(s) && bytes.length <= old(bytes.length)
      ensures !started ==> bytes.length < settings.delimiterBytes
    {
      hide Parse, ByteQueue.Valid, ByteQueue.Contents, BigEndian, PacketSize, Undecided, Packets;
      while bytes.length >= settings.delimiterBytes
        invariant Progress(s) && !started && bytes.length <= old(bytes.length)
        decreases bytes.length
      {
        var peeked := bytes.Peek(settings.delimiterBytes);
        if BigEndian(peeked.value) in settings.delimiters {
          started := true;
          return;
        }
        ghost var t := bytes.Contents();
        SkipStep(settings, t);
        PacketsSnoc(pieces, Skipped(t[0]));
        ghost var next := Parse(settings, t[1..]);
        assert pieces + ([Skipped(t[0])] + next.pieces) == (pieces + [Skipped(t[0])]) + next.pieces;
        var _ := bytes.Discard(1);
        pieces := pieces + [Skipped(t[0])];
      }
    }

    /** One pass of the outer loop; `more` is false when the loop stops. */
    method Advance(ghost s: Bytes) returns (more: bool)
      requires Progress(s)
      modifies this`started, this`length, this`pushed, this`pieces, bytes
      ensures Progress(s)
      ensures more ==> bytes.length < old(bytes.length)
      ensures !more ==> Undecided(settings, bytes.Contents())
    {
      hide Parse, ByteQueue.Valid, ByteQueue.Contents, BigEndian, LittleEndian, Packets;
      if !started {
        Scan(s);
        if !started { return false; }
      }
      if length == 0 {
        var headerLength := settings.HeaderLength();
        if bytes.length < headerLength { return false; }
        var header := bytes.Peek(headerLength);
        var payload := LittleEndian(header.value[settings.lengthOffset..settings.lengthOffset + settings.lengthBytes]);
        ghost var t, i, j := bytes.Contents(), settings.lengthOffset, settings.lengthOffset + settings.lengthBytes;
        assert t[..headerLength][i..j] == t[i..j];
        length := if payload > settings.maxLen then headerLength
                  else Max(headerLength, payload + settings.packetOverhead);
      }
      if bytes.length < length { return false; }
      more := true;
      Complete(s);
    }

    /** A packet is complete. */
    method Complete(ghost s: Bytes)
      requires Progress(s) && 0 < length <= bytes.length
      modifies this`started, this`length, this`pushed, this`pieces, bytes
      ensures Progress(s) && bytes.length < old(bytes.length)
    {
      hide Parse, ByteQueue.Valid, ByteQueue.Contents, BigEndian, LittleEndian, Packets, Undecided, Delimited, PacketSize;
      ghost var t, n := bytes.Contents(), length;
      PacketStep(settings, t);
      PacketsSnoc(pieces, Packet(t[..n]));
      ghost var next := Parse(settings, t[n..]);
      assert pieces + ([Packet(t[..n])] + next.pieces) == (pieces + [Packet(t[..n])]) + next.pieces;
      var packet := bytes.Take(length);
      pushed := pushed + [packet.value];
      pieces := pieces + [Packet(t[..n])];
      length := 0;
      started := false;
    }

    method Transform(chunk: Bytes)
      requires Valid()
      modifies this, bytes
      ensures Valid() && input == old(input) + chunk
    {
      hide Parse, Undecided, PacketSize, BigEndian, Packets, ByteQueue.Valid, ByteQueue.Contents;
      Appended(settings, input, pieces, bytes.Contents(), chunk);
      SizeOfPrefix(settings, bytes.Contents(), chunk);
      bytes.Append(chunk);
      input := input + chunk;
      var more := true;
      while more
        invariant Progress(input) && input == old(input) + chunk
        invariant !more ==> Undecided(settings, bytes.Contents())
        decreases more, bytes.length
      {
        more := Advance(input);
      }
    }

    /** The end of the input. */
    method Flush()
      requires Valid()
      modifies this, bytes
      ensures input == old(input)
      ensures pushed == Packets(Parse(settings, input).pieces) + [Parse(settings, input).rest]
    {
      hide Parse, Undecided, Delimited, PacketSize, Packets, ByteQueue.Valid, ByteQueue.Contents;
      Meaning();
      ghost var tail := bytes.Contents();
      assert tail[..|tail|] == tail;
      var last := bytes.Take(bytes.length);
      pushed := pushed + [last.value];
    }
  }

  /** A whole stream in chunks: the pushes depend only on the concatenation. */
  method ParseStream(settings: Settings, chunks: seq<Bytes>) returns (pushed: seq<Bytes>)
    requires settings.Valid()
    ensures var r := Parse(settings, Flat(chunks)); pushed == Packets(r.pieces) + [r.rest]
  {
    hide Parse, Packets, Undecided, PacketLengthParser.Progress, ByteQueue.Valid, ByteQueue.Contents;
    var parser := new PacketLengthParser(settings);
    assert Flat(chunks[..0]) == [];
    for i := 0 to |chunks|
      invariant parser.Valid() && parser.settings == settings && fresh(parser) && fresh(parser.bytes)
      invariant parser.input == Flat(chunks[..i])
    {
      FlatSnoc(chunks[..i], chunks[i]);
      assert chunks[..i + 1] == chunks[..i] + [chunks[i]];
      parser.Transform(chunks[i]);
    }
    assert chunks[..|chunks|] == chunks;
    parser.Flush();
    return parser.pushed;
  }
}
