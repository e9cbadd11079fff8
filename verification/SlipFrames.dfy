/** What SLIP puts on the wire, and what the decoder makes of a wire that no encoder has written. */
module SlipFrames {
  import opened Common
  import opened Slip

  /** The dialect of RFC 1055, which is the default, and one with a START marker and a leading END. */
  const DEFAULT: Settings := Settings(None, 0xC0, 0xDB, None, 0xDC, 0xDD, false)
  const MARKED: Settings := Settings(Some(0), 2, 1, Some(3), 4, 5, true)

  // ---- The wire ----------------------------------------------------------------------------------------

  lemma FrameOfThree(c: Settings, x: byte, y: byte, z: byte)
    ensures Frame(c, [x, y, z]) == Header(c) + (EscapeByte(c, x) + EscapeByte(c, y) + EscapeByte(c, z)) + [c.end]
  {
    hide Header, EscapeByte;
    var one, two, all: Bytes := [x], [x, y], [x, y, z];
    assert one[..0] == [] && two[..1] == one && all[..2] == two;
    assert Escape(c, one) == EscapeByte(c, x);
    assert Escape(c, two) == EscapeByte(c, x) + EscapeByte(c, y);
  }

  /** Frames of both dialects, byte for byte. */
  lemma KnownFrames()
    ensures Frame(DEFAULT, [0xDB, 0xC0, 7]) == [0xDB, 0xDD, 0xDB, 0xDC, 7, 0xC0] && Frame(DEFAULT, []) == [0xC0]
    ensures Frame(MARKED, [0, 1, 2]) == [2, 0, 1, 3, 1, 5, 1, 4, 2] && Frame(MARKED, []) == []
  {
    hide Frame, Escape;
    FrameOfThree(DEFAULT, 0xDB, 0xC0, 7);
    FrameOfThree(MARKED, 0, 1, 2);
    NoPayload(DEFAULT);
    NoPayload(MARKED);
  }

  lemma NoPayload(c: Settings)
    ensures Frame(c, []) == if c.bluetoothQuirk then [] else Header(c) + [c.end]
  {
    assert Header(c) + [] == Header(c);
  }

  /** END never occurs inside a payload on the wire: the frames of a wire can be told apart. */
  ghost predicate Framed(c: Settings) { forall s :: c.end !in Escape(c, s) }

  /** Exactly when that is so: ESC is not END, and no escape code is. */
  lemma {:induction false} EndEndsFrames(c: Settings)
    ensures Framed(c) <==> c.esc != c.end && forall b: byte :: c.EncodeCode(b) != c.end
  {
    hide Settings.EncodeCode, Escape;
    if c.esc != c.end && forall b: byte :: c.EncodeCode(b) != c.end {
      forall s ensures c.end !in Escape(c, s) { NoEndInside(c, s); }
    } else if c.esc == c.end {
      OneEscaped(c, c.end);
      EscapedMarker(c);
      assert c.end in Escape(c, [c.end]);
    } else {
      var b: byte :| c.EncodeCode(b) == c.end;
      OneEscaped(c, b);
      assert c.end in Escape(c, [b]);
    }
  }

  lemma OneEscaped(c: Settings, b: byte)
    ensures Escape(c, [b]) == EscapeByte(c, b)
  {
    assert [b][..0] == [];
  }

  lemma EscapedMarker(c: Settings)
    ensures c.EncodeCode(c.end) != -1
  {
  }

  lemma {:induction false} NoEndInside(c: Settings, s: Bytes)
    requires c.esc != c.end && forall b: byte :: c.EncodeCode(b) != c.end
    ensures c.end !in Escape(c, s)
  {
    if s != [] {
      NoEndInside(c, s[..|s| - 1]);
      PlainIsNotEnd(c, s[|s| - 1]);
    }
  }

  lemma PlainIsNotEnd(c: Settings, b: byte)
    requires c.esc != c.end && c.EncodeCode(b) != c.end
    ensures c.end !in EscapeByte(c, b)
  {
  }

  // ---- Other wires -------------------------------------------------------------------------------------

  /** Outside a frame everything up to START is dropped. */
  lemma {:induction false} DroppedBeforeStart(c: Settings, limit: Option<nat>, d: Decoder, pushed: seq<Bytes>, s: Bytes)
    requires c.start.Some? && !d.started && !d.escaped && !TooLong(limit, |d.frame|)
    requires c.start.value !in s && c.esc !in s && c.end !in s
    ensures Decode(c, limit, Running(d, pushed), s) == Running(d, pushed)
  {
    if s != [] {
      assert s[|s| - 1] in s;
      DroppedBeforeStart(c, limit, d, pushed, s[..|s| - 1]);
    }
  }

  /** An escape that stands for nothing ends the frame before it, and its second byte begins the next. */
  lemma InvalidEscapeSplits(c: Settings, d: Decoder, pushed: seq<Bytes>, b: byte)
    requires d.started && !d.escaped && c.start != Some(c.esc) && c.DecodeCode(b) == -1
    ensures Decode(c, None, Running(d, pushed), [c.esc, b]) == Running(d.(frame := [b]), pushed + [d.frame])
  {
    var r := Running(d, pushed);
    assert [c.esc, b][..1] == [c.esc] && [c.esc][..0] == [];
    assert Decode(c, None, r, [c.esc]) == Step(c, None, r, c.esc);
  }

  /** Wires of both dialects: an invalid escape, bytes outside a frame, and an unfinished frame. */
  lemma KnownStreams()
    ensures Decoded(DEFAULT, None, [7, 0xDB, 9, 0xC0, 10]) == Outcome([[7], [9], [10]], false)
    ensures Decoded(MARKED, None, [9, 0, 8, 1, 3, 2, 7]) == Outcome([[8, 0], []], false)
  {
    UnfinishedDefault();
    OutsideMarked();
  }

  function After(c: Settings, wire: Bytes, k: nat): Decoding
    requires k <= |wire|
  {
    Decode(c, None, Fresh(c), wire[..k])
  }

  lemma DecodeTake(c: Settings, wire: Bytes, k: nat)
    requires k < |wire|
    ensures After(c, wire, k + 1) == Step(c, None, After(c, wire, k), wire[k])
  {
    assert wire[..k + 1] == wire[..k] + [wire[k]];
    DecodeSnoc(c, None, Fresh(c), wire[..k], wire[k]);
  }

  lemma DecodeNothing(c: Settings, wire: Bytes)
    ensures After(c, wire, 0) == Fresh(c)
  {
  }

  lemma UnfinishedDefault()
    ensures Decoded(DEFAULT, None, [7, 0xDB, 9, 0xC0, 10]) == Outcome([[7], [9], [10]], false)
  {
    hide Decode;
    var wire: Bytes := [7, 0xDB, 9, 0xC0, 10];
    DecodeNothing(DEFAULT, wire);
    DecodeTake(DEFAULT, wire, 0);
    assert After(DEFAULT, wire, 1) == Running(Decoder(true, false, [7]), []);
    DecodeTake(DEFAULT, wire, 1);
    DecodeTake(DEFAULT, wire, 2);
    assert After(DEFAULT, wire, 3) == Running(Decoder(true, false, [9]), [[7]]);
    DecodeTake(DEFAULT, wire, 3);
    assert After(DEFAULT, wire, 4) == Running(Decoder(true, false, []), [[7], [9]]);
    DecodeTake(DEFAULT, wire, 4);
    assert After(DEFAULT, wire, 5) == Running(Decoder(true, false, [10]), [[7], [9]]);
    assert wire[..5] == wire;
  }

  lemma OutsideMarked()
    ensures Decoded(MARKED, None, [9, 0, 8, 1, 3, 2, 7]) == Outcome([[8, 0], []], false)
  {
    hide Decode;
    var wire: Bytes := [9, 0, 8, 1, 3, 2, 7];
    DecodeNothing(MARKED, wire);
    DecodeTake(MARKED, wire, 0);
    DecodeTake(MARKED, wire, 1);
    assert After(MARKED, wire, 2) == Running(Decoder(true, false, []), []);
    DecodeTake(MARKED, wire, 2);
    assert After(MARKED, wire, 3) == Running(Decoder(true, false, [8]), []);
    DecodeTake(MARKED, wire, 3);
    DecodeTake(MARKED, wire, 4);
    assert After(MARKED, wire, 5) == Running(Decoder(true, false, [8, 0]), []);
    DecodeTake(MARKED, wire, 5);
    assert After(MARKED, wire, 6) == Running(Decoder(false, false, []), [[8, 0]]);
    DecodeTake(MARKED, wire, 6);
    assert wire[..7] == wire;
  }
}
