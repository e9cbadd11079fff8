/** What the SLIP decoder makes of the SLIP encoder's output. */
module SlipRoundTrip {
  import opened Common
  import opened Slip

  /** The markers can be told apart. */
  predicate Distinct(c: Settings) {
    c.esc != c.end && (c.start.Some? ==> c.start.value != c.esc && c.start.value != c.end)
  }

  /** The markers and the escape codes can be told apart, each among themselves.  An escape code
    may equal a marker. */
  predicate Reversible(c: Settings) {
    && Distinct(c) && c.escEnd != c.escEsc
    && (c.start.Some? ==> c.escStart.Some? && c.escStart.value != c.escEnd && c.escStart.value != c.escEsc)
  }

  function Delivered(o: Outcome): Outcome { Outcome(NonEmpty(o.pushed), o.overflow) }

  /** What is delivered of `payloads` after encoding and decoding. */
  function Received(c: Settings, limit: Option<nat>, payloads: seq<Bytes>): Outcome {
    Delivered(Decoded(c, limit, Wire(c, payloads)))
  }

  // ---- Distinct markers ----------------------------------------------------------------------------

  /** What one payload byte comes back as. */
  function ImageByte(c: Settings, b: byte): Bytes {
    var code := c.EncodeCode(b);
    if code == -1 then (if c.start == Some(b) then [] else [b])
    else if c.DecodeCode(code) == -1 then [] else [c.DecodeCode(code)]
  }

  function Image(c: Settings, s: Bytes): Bytes {
    if s == [] then [] else Image(c, s[..|s| - 1]) + ImageByte(c, s[|s| - 1])
  }

  function Images(c: Settings, payloads: seq<Bytes>): (r: seq<Bytes>)
    ensures |r| == |payloads|
  {
    seq(|payloads|, i requires 0 <= i < |payloads| => Image(c, payloads[i]))
  }

  lemma {:induction false} ImageIsIdentity(c: Settings, s: Bytes)
    requires Reversible(c)
    ensures Image(c, s) == s
  {
    if s != [] {
      ImageIsIdentity(c, s[..|s| - 1]);
      assert s == s[..|s| - 1] + [s[|s| - 1]];
    }
  }

  lemma DecodeTwo(c: Settings, limit: Option<nat>, r: Decoding, a: byte, b: byte)
    ensures Decode(c, limit, r, [a]) == Step(c, limit, r, a)
    ensures Decode(c, limit, r, [a, b]) == Step(c, limit, Step(c, limit, r, a), b)
  {
    assert [a][..0] == [] && [a, b][..1] == [a];
  }

  lemma DecodeEscapedByte(c: Settings, limit: Option<nat>, d: Decoder, pushed: seq<Bytes>, b: byte)
    requires Distinct(c) && d.started && !d.escaped && !TooLong(limit, |d.frame|)
    ensures var frame := d.frame + ImageByte(c, b);
            Decode(c, limit, Running(d, pushed), EscapeByte(c, b))
            == if TooLong(limit, |frame|) then Overflowed(pushed) else Running(d.(frame := frame), pushed)
  {
    hide Decode;
    var code := c.EncodeCode(b);
    if code == -1 {
      DecodeTwo(c, limit, Running(d, pushed), b, b);
      if c.start == Some(b) { assert d.frame + [] == d.frame; }
    } else {
      assert c.DecodeCode(code) != -1;
      DecodeTwo(c, limit, Running(d, pushed), c.esc, code);
    }
  }

  lemma {:induction false} DecodeEscape(c: Settings, limit: Option<nat>, d: Decoder, pushed: seq<Bytes>, s: Bytes)
    requires Distinct(c) && d.started && !d.escaped && !TooLong(limit, |d.frame|)
    ensures var frame := d.frame + Image(c, s);
            Decode(c, limit, Running(d, pushed), Escape(c, s))
            == if TooLong(limit, |frame|) then Overflowed(pushed) else Running(d.(frame := frame), pushed)
  {
    hide Step, EscapeByte, ImageByte;
    if s == [] {
      assert d.frame + [] == d.frame;
    } else {
      var b, rest := s[|s| - 1], s[..|s| - 1];
      var frame := d.frame + Image(c, rest);
      DecodeEscape(c, limit, d, pushed, rest);
      DecodeAppend(c, limit, Running(d, pushed), Escape(c, rest), EscapeByte(c, b));
      assert d.frame + Image(c, s) == frame + ImageByte(c, b);
      if TooLong(limit, |frame|) {
        OverflowStays(c, limit, pushed, EscapeByte(c, b));
      } else {
        DecodeEscapedByte(c, limit, d.(frame := frame), pushed, b);
      }
    }
  }

  function Idle(c: Settings, pushed: seq<Bytes>): Decoding {
    Running(Decoder(c.start.None?, false, []), pushed)
  }

  /** The pushes before a payload: the quirk's leading END completes an empty frame. */
  function Lead(c: Settings): seq<Bytes> { if c.bluetoothQuirk then [[]] else [] }

  lemma DecodeHeader(c: Settings, limit: Option<nat>, pushed: seq<Bytes>)
    requires Distinct(c)
    ensures Decode(c, limit, Idle(c, pushed), Header(c)) == Running(Decoder(true, false, []), pushed + Lead(c))
  {
    hide Decode;
    var start := if c.start.Some? then c.start.value else 0;
    DecodeTwo(c, limit, Idle(c, pushed), c.end, start);
    DecodeTwo(c, limit, Idle(c, pushed), start, start);
    assert Decode(c, limit, Idle(c, pushed), []) == Idle(c, pushed) by { DecodeNothing(c, limit, Idle(c, pushed)); }
    assert pushed + [] == pushed;
    assert Header(c) == if c.bluetoothQuirk then (if c.start.Some? then [c.end, start] else [c.end])
                        else if c.start.Some? then [start] else [];
  }

  lemma DecodeNothing(c: Settings, limit: Option<nat>, r: Decoding)
    ensures Decode(c, limit, r, []) == r
  {
  }

  lemma DecodeFrame(c: Settings, limit: Option<nat>, pushed: seq<Bytes>, payload: Bytes)
    requires Distinct(c)
    ensures var image, led := Image(c, payload), pushed + Lead(c);
            Decode(c, limit, Idle(c, pushed), Frame(c, payload))
            == if c.bluetoothQuirk && payload == [] then Idle(c, pushed)
               else if TooLong(limit, |image|) then Overflowed(led)
               else Idle(c, led + [image])
  {
    hide Decode, Escape, Image, Header, Lead;
    DecodeNothing(c, limit, Idle(c, pushed));
    var led, d := pushed + Lead(c), Decoder(true, false, []);
    var head, body := Header(c), Escape(c, payload);
    DecodeHeader(c, limit, pushed);
    DecodeAppend(c, limit, Idle(c, pushed), head, body);
    DecodeEscape(c, limit, d, led, payload);
    assert [] + Image(c, payload) == Image(c, payload);
    DecodeSnoc(c, limit, Idle(c, pushed), head + body, c.end);
  }

  /** Decoding a wire image, payload by payload. */
  lemma {:induction false} DecodeWire(c: Settings, limit: Option<nat>, payloads: seq<Bytes>)
    requires Distinct(c)
    ensures var r, images := Decode(c, limit, Fresh(c), Wire(c, payloads)), Images(c, payloads);
            && (Short(limit, images) == images ==>
                  r.Running? && r == Idle(c, r.pushed) && NonEmpty(r.pushed) == NonEmpty(images))
            && (Short(limit, images) != images ==>
                  r.Overflowed? && NonEmpty(r.pushed) == NonEmpty(Short(limit, images)))
  {
    hide Decode, Frame, Image, Short, NonEmpty;
    if payloads == [] {
      DecodeNothing(c, limit, Fresh(c));
      assert Images(c, payloads) == [];
      ShortNothing(limit);
    } else {
      var rest, last := payloads[..|payloads| - 1], payloads[|payloads| - 1];
      DecodeWire(c, limit, rest);
      DecodeAppend(c, limit, Fresh(c), Wire(c, rest), Frame(c, last));
      assert Images(c, payloads) == Images(c, rest) + [Image(c, last)];
      var r := Decode(c, limit, Fresh(c), Wire(c, rest));
      WireStep(c, limit, r, Images(c, rest), last);
    }
  }

  lemma ShortNothing(limit: Option<nat>)
    ensures Short(limit, []) == []
  {
  }

  lemma WireStep(c: Settings, limit: Option<nat>, r: Decoding, images: seq<Bytes>, last: Bytes)
    requires Distinct(c)
    requires Short(limit, images) == images ==>
               r.Running? && r == Idle(c, r.pushed) && NonEmpty(r.pushed) == NonEmpty(images)
    requires Short(limit, images) != images ==>
               r.Overflowed? && NonEmpty(r.pushed) == NonEmpty(Short(limit, images))
    ensures var next, all := Decode(c, limit, r, Frame(c, last)), images + [Image(c, last)];
            && (Short(limit, all) == all ==>
                  next.Running? && next == Idle(c, next.pushed) && NonEmpty(next.pushed) == NonEmpty(all))
            && (Short(limit, all) != all ==>
                  next.Overflowed? && NonEmpty(next.pushed) == NonEmpty(Short(limit, all)))
  {
    hide Decode, Frame, Short, NonEmpty;
    ShortStops(limit, images, [Image(c, last)]);
    if Short(limit, images) != images {
      OverflowStays(c, limit, r.pushed, Frame(c, last));
    } else {
      ShortOne(limit, Image(c, last));
      assert images + [] == images;
      DecodeFrame(c, limit, r.pushed, last);
      NonEmptySnoc(r.pushed, []);
      assert r.pushed + [] == r.pushed;
      assert NonEmpty(r.pushed + Lead(c)) == NonEmpty(r.pushed);
      NonEmptySnoc(r.pushed + Lead(c), Image(c, last));
      NonEmptySnoc(images, Image(c, last));
    }
  }

  /** With distinct markers exactly the non-empty images are delivered, up to the first that is
    too long. */
  lemma ImagesAreReceived(c: Settings, limit: Option<nat>, payloads: seq<Bytes>)
    requires Distinct(c)
    ensures var images := Images(c, payloads);
            Received(c, limit, payloads) == Outcome(NonEmpty(Short(limit, images)), Short(limit, images) != images)
  {
    hide Decode, Short, NonEmpty, Wire, Images;
    DecodeWire(c, limit, payloads);
    var r := Decode(c, limit, Fresh(c), Wire(c, payloads));
    NonEmptySnoc(r.pushed, []);
  }

  /** The round trip, with a limit: the decoder delivers exactly the non-empty payloads, and fails
    exactly when some payload is longer than the limit. */
  lemma RoundTrip(c: Settings, limit: Option<nat>, payloads: seq<Bytes>)
    requires Reversible(c)
    ensures Received(c, limit, payloads).pushed == NonEmpty(Short(limit, payloads))
    ensures Received(c, limit, payloads).overflow
            <==> limit.Some? && exists p :: p in payloads && |p| > limit.value
    ensures !Received(c, limit, payloads).overflow ==> Received(c, limit, payloads).pushed == NonEmpty(payloads)
  {
    hide Received, Short, NonEmpty, Image;
    ImagesAreReceived(c, limit, payloads);
    forall i | 0 <= i < |payloads| ensures Images(c, payloads)[i] == payloads[i] {
      ImageIsIdentity(c, payloads[i]);
    }
    assert Images(c, payloads) == payloads;
    ShortMeans(limit, payloads);
  }

  /** Encoder, transport and decoder together: `split` cuts the wire into chunks in any way at all. */
  method Transport(c: Settings, limit: Option<nat>, payloads: seq<Bytes>, split: Bytes -> seq<Bytes>)
    returns (outcome: Outcome)
    requires forall wire :: Flat(split(wire)) == wire
    ensures Delivered(outcome) == Received(c, limit, payloads)
    ensures Reversible(c) ==>
              && NonEmpty(outcome.pushed) == NonEmpty(Short(limit, payloads))
              && (outcome.overflow <==> limit.Some? && exists p :: p in payloads && |p| > limit.value)
              && (!outcome.overflow ==> NonEmpty(outcome.pushed) == NonEmpty(payloads))
  {
    hide Decode, Wire, Short, NonEmpty, Image, Fresh, Reversible;
    var wire := EncodeStream(c, payloads);
    outcome := DecodeStream(c, limit, split(wire));
    if Reversible(c) { RoundTrip(c, limit, payloads); }
  }

  // ---- Every other dialect loses something ------------------------------------------------------------

  ghost predicate Restores(c: Settings, payloads: seq<Bytes>) {
    Received(c, None, payloads) == Outcome(NonEmpty(payloads), false)
  }

  function PlainByte(c: Settings): (x: byte)
    ensures x != c.esc && x != c.end && c.start != Some(x) && c.EncodeCode(x) == -1
  {
    var x: byte := if c.esc == 0 || c.end == 0 || c.start == Some(0) then
                     if c.esc == 1 || c.end == 1 || c.start == Some(1) then
                       if c.esc == 2 || c.end == 2 || c.start == Some(2) then 3 else 2
                     else 1
                   else 0;
    x
  }

  /** The reference decoder over the wire image of a one-byte payload. */
  function After(c: Settings, r: Decoding, b: byte): Decoding {
    var led := if c.bluetoothQuirk then Step(c, None, r, c.end) else r;
    var begun := if c.start.Some? then Step(c, None, led, c.start.value) else led;
    var code := c.EncodeCode(b);
    Step(c, None, if code == -1 then Step(c, None, begun, b) else Step(c, None, Step(c, None, begun, c.esc), code), c.end)
  }

  lemma FrameOfOne(c: Settings, r: Decoding, b: byte)
    ensures Decode(c, None, r, Frame(c, [b])) == After(c, r, b)
  {
    hide Decode, Step;
    var one: Bytes := [b];
    assert one[..0] == [] && Escape(c, one) == EscapeByte(c, b);
    var start := if c.start.Some? then c.start.value else 0;
    var led := if c.bluetoothQuirk then Step(c, None, r, c.end) else r;
    var begun := if c.start.Some? then Step(c, None, led, c.start.value) else led;
    assert Header(c) == if c.bluetoothQuirk then (if c.start.Some? then [c.end, start] else [c.end])
                        else if c.start.Some? then [start] else [];
    DecodeNothing(c, None, r);
    DecodeTwo(c, None, r, c.end, start);
    DecodeTwo(c, None, r, start, start);
    assert Decode(c, None, r, Header(c)) == begun;
    ByteRuns(c, begun, b);
    DecodeAppend(c, None, r, Header(c), EscapeByte(c, b));
    DecodeSnoc(c, None, r, Header(c) + EscapeByte(c, b), c.end);
  }

  lemma ByteRuns(c: Settings, r: Decoding, b: byte)
    ensures var code := c.EncodeCode(b);
            Decode(c, None, r, EscapeByte(c, b))
            == if code == -1 then Step(c, None, r, b) else Step(c, None, Step(c, None, r, c.esc), code)
  {
    hide Decode, Step;
    var code := c.EncodeCode(b);
    if code == -1 { DecodeTwo(c, None, r, b, b); } else { DecodeTwo(c, None, r, c.esc, code); }
  }

  lemma ReceivedOne(c: Settings, b: byte)
    requires After(c, Fresh(c), b).Running?
    ensures var r := After(c, Fresh(c), b);
            Restores(c, [[b]]) <==> NonEmpty(r.pushed + [r.state.frame]) == [[b]]
  {
    hide Decode, Step, Frame, After, Fresh;
    FrameOfOne(c, Fresh(c), b);
    var one: seq<Bytes> := [[b]];
    assert one[..0] == [] && Wire(c, one) == Frame(c, [b]) && NonEmpty(one) == one;
  }

  lemma ReceivedTwo(c: Settings, a: byte, b: byte)
    requires After(c, After(c, Fresh(c), a), b).Running?
    ensures var r := After(c, After(c, Fresh(c), a), b);
            Restores(c, [[a], [b]]) <==> NonEmpty(r.pushed + [r.state.frame]) == [[a], [b]]
  {
    hide Decode, Step, Frame, After, Fresh;
    FrameOfOne(c, Fresh(c), a);
    FrameOfOne(c, After(c, Fresh(c), a), b);
    WireOfTwo(c, [a], [b]);
    NonEmptyFew([a], [b]);
    DecodeAppend(c, None, Fresh(c), Frame(c, [a]), Frame(c, [b]));
  }

  lemma WireOfTwo(c: Settings, p: Bytes, q: Bytes)
    ensures Wire(c, [p, q]) == Frame(c, p) + Frame(c, q)
  {
    hide Frame;
    var one, two := [p], [p, q];
    assert one[..0] == [] && two[..1] == one;
    assert Wire(c, one) == Frame(c, p);
  }

  lemma NonEmptyFew(a: Bytes, b: Bytes)
    ensures NonEmpty([]) == []
    ensures NonEmpty([a]) == if a == [] then [] else [a]
    ensures NonEmpty([a, b]) == (if a == [] then [] else [a]) + (if b == [] then [] else [b])
  {
    assert [a][..0] == [] && [a, b][..1] == [a];
  }

  lemma StartIsEnd(c: Settings)
    requires c.start == Some(c.end)
    ensures var x := PlainByte(c); !Restores(c, [[x], [x]])
  {
    hide NonEmpty, PlainByte, Restores;
    var x := PlainByte(c);
    var r := After(c, Fresh(c), x);
    assert r == Running(Decoder(true, false, [x]), []);
    var next := After(c, r, x);
    assert next == Running(Decoder(true, false, [x, x]), []);
    ReceivedTwo(c, x, x);
    NonEmptyFew([x, x], []);
    assert next.pushed + [next.state.frame] == [[x, x]];
  }

  lemma StartIsEsc(c: Settings)
    requires c.start == Some(c.esc) && c.esc != c.end
    ensures !Restores(c, [[c.end]])
  {
    hide NonEmpty, Restores;
    var e, lead := c.end, Lead(c);
    var r := After(c, Fresh(c), e);
    var frame: Bytes := if c.escEnd == c.esc || c.escEnd == e then [] else [c.escEnd];
    ReceivedOne(c, e);
    NonEmptyFew([], []);
    assert NonEmpty(lead) == [] && r.state.frame == [];
    if c.escEnd == e {
      assert r.pushed == lead + [[]] + [[]];
      NonEmptySnoc(lead, []);
      NonEmptySnoc(lead + [[]], []);
    } else {
      assert r.pushed[|lead|] == frame;
      assert r.pushed == lead + [frame];
      NonEmptySnoc(lead, frame);
    }
    NonEmptySnoc(r.pushed, r.state.frame);
    var expected: seq<Bytes> := [[e]];
    var delivered := NonEmpty(r.pushed + [r.state.frame]);
    assert delivered == if frame == [] then [] else [frame];
    if frame != [] { assert delivered[0][0] != expected[0][0]; }
  }

  lemma EscIsEndWithStart(c: Settings)
    requires c.start.Some? && c.start.value != c.esc && c.esc == c.end
    ensures var x := PlainByte(c); !Restores(c, if c.bluetoothQuirk then [[x]] else [[x], [x]])
  {
    hide NonEmpty, PlainByte, Restores;
    var x, start := PlainByte(c), c.start.value;
    var r := After(c, Fresh(c), x);
    var code := c.DecodeCode(start);
    if c.bluetoothQuirk {
      assert r == Running(Decoder(false, true, []), if code == -1 then [[]] else []);
      ReceivedOne(c, x);
      NonEmptyFew([], []);
      assert r.pushed + [r.state.frame] == if code == -1 then [[], []] else [[]];
    } else {
      assert r == Running(Decoder(true, true, [x]), []);
      var next := After(c, r, x);
      ReceivedTwo(c, x, x);
      if code == -1 {
        assert next == Running(Decoder(true, true, [start, x]), [[x]]);
        NonEmptyFew([x], [start, x]);
        assert next.pushed + [next.state.frame] == [[x], [start, x]];
      } else {
        assert next == Running(Decoder(true, true, [x, code, x]), []);
        NonEmptyFew([x, code, x], []);
        assert next.pushed + [next.state.frame] == [[x, code, x]];
      }
    }
  }

  lemma EscIsEnd(c: Settings)
    requires c.start.None? && c.esc == c.end
    ensures var x := PlainByte(c); !Restores(c, if c.bluetoothQuirk then [[c.escEnd]] else [[x], [c.escEnd]])
  {
    hide NonEmpty, PlainByte, Restores;
    var x, e, w := PlainByte(c), c.end, c.escEnd;
    if c.bluetoothQuirk {
      var r := After(c, Fresh(c), w);
      ReceivedOne(c, w);
      var frame: Bytes := if w == e then [e, e] else [e];
      assert r == Running(Decoder(true, w != e, frame), []);
      NonEmptyFew(frame, []);
      assert r.pushed + [frame] == [frame];
    } else {
      var r := After(c, Fresh(c), x);
      assert r == Running(Decoder(true, true, [x]), []);
      var next := After(c, r, w);
      var frame: Bytes := if w == e then [x, e, e] else [x, e];
      assert next == Running(Decoder(true, w != e, frame), []);
      ReceivedTwo(c, x, w);
      NonEmptyFew(frame, []);
      assert next.pushed + [frame] == [frame];
    }
  }

  lemma ImageDiffers(c: Settings, b: byte)
    requires Distinct(c) && ImageByte(c, b) != [b]
    ensures !Restores(c, [[b]])
  {
    hide Received;
    var one: seq<Bytes> := [[b]];
    ImagesAreReceived(c, None, one);
    var payload: Bytes := [b];
    assert payload[..0] == [] && Image(c, payload) == ImageByte(c, b);
    assert Images(c, one) == [Image(c, payload)];
    ShortMeans(None, Images(c, one));
    NonEmptyFew(payload, []);
    NonEmptyFew(Image(c, payload), []);
  }

  /** A payload list that the dialect does not restore. */
  function Witness(c: Settings): seq<Bytes> {
    if c.start == Some(c.end) then [[PlainByte(c)], [PlainByte(c)]]
    else if c.start == Some(c.esc) then [[c.end]]
    else if c.esc == c.end then
      if c.start.Some? then (if c.bluetoothQuirk then [[PlainByte(c)]] else [[PlainByte(c)], [PlainByte(c)]])
      else if c.bluetoothQuirk then [[c.escEnd]] else [[PlainByte(c)], [c.escEnd]]
    else if c.start.Some? && c.escStart.None? then [[c.start.value]]
    else if c.escEnd == c.escEsc || (c.start.Some? && c.escStart.value == c.escEnd) then [[c.end]]
    else [[c.esc]]
  }

  lemma WitnessIsLost(c: Settings)
    requires !Reversible(c)
    ensures !Restores(c, Witness(c))
  {
    hide Restores, PlainByte, Received;
    if c.start == Some(c.end) { StartIsEnd(c); }
    else if c.start == Some(c.esc) { StartIsEsc(c); }
    else if c.esc == c.end {
      if c.start.Some? { EscIsEndWithStart(c); } else { EscIsEnd(c); }
    }
    else if c.start.Some? && c.escStart.None? { ImageDiffers(c, c.start.value); }
    else if c.escEnd == c.escEsc || (c.start.Some? && c.escStart.value == c.escEnd) { ImageDiffers(c, c.end); }
    else { ImageDiffers(c, c.esc); }
  }

  /** The dialects that restore every sequence of payloads are exactly the reversible ones. */
  lemma RoundTripExactly(c: Settings)
    ensures Reversible(c) <==> forall payloads :: Restores(c, payloads)
  {
    hide Received, Reversible;
    if Reversible(c) {
      forall payloads ensures Restores(c, payloads) { RoundTrip(c, None, payloads); }
    } else {
      WitnessIsLost(c);
    }
  }
}
