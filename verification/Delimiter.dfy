/** Delimiter-separated frames with an optional length limit. */
module Delimiters {
  import opened Common
  import opened ByteQueues
  import opened Matchers

  // ---- What the parser is meant to produce ------------------------------------------------------

  /** The end of the first occurrence of `d` in `s`, or 0. */
  function EndOf(d: Bytes, s: Bytes): (e: nat)
    requires d != []
    ensures e <= |s|
    ensures e == 0 <==> Absent(d, s)
    ensures e != 0 ==> |d| <= e && FirstEnd(d, s[..e])
  {
    Search(d, s, 0)
  }

  function Search(d: Bytes, s: Bytes, from: nat): (e: nat)
    requires d != [] && from <= |s| + 1
    requires forall i :: 0 <= i < from ==> !Fits(d, s[..i], |d|)
    ensures e <= |s|
    ensures e == 0 <==> Absent(d, s)
    ensures e != 0 ==> |d| <= e && FirstEnd(d, s[..e])
    decreases |s| + 1 - from
  {
    if from > |s| then 0
    else if Fits(d, s[..from], |d|) then
      FirstFound(d, s, from);
      from
    else Search(d, s, from + 1)
  }

  lemma FirstFound(d: Bytes, s: Bytes, e: nat)
    requires d != [] && e <= |s| && Fits(d, s[..e], |d|)
    requires forall i :: 0 <= i < e ==> !Fits(d, s[..i], |d|)
    ensures FirstEnd(d, s[..e]) && !Absent(d, s)
  {
    var t := s[..e][..e - 1];
    forall i | 0 <= i <= |t| ensures !Fits(d, t[..i], |d|) { assert t[..i] == s[..i]; }
  }

  /** Leftmost non-overlapping splitting: the payloads of the completed frames... */
  function Frames(d: Bytes, s: Bytes): seq<Bytes>
    requires d != []
    decreases |s|
  {
    var e := EndOf(d, s);
    if e == 0 then [] else [s[..e - |d|]] + Frames(d, s[e..])
  }

  /** ... and what follows the last delimiter. */
  function Tail(d: Bytes, s: Bytes): Bytes
    requires d != []
    decreases |s|
  {
    var e := EndOf(d, s);
    if e == 0 then s else Tail(d, s[e..])
  }

  /** Every payload with its delimiter, in order. */
  function Joined(d: Bytes, frames: seq<Bytes>): Bytes {
    if frames == [] then [] else frames[0] + d + Joined(d, frames[1..])
  }

  /** The splitting loses nothing, every frame ends at the first delimiter after its start, and
    the tail holds none. */
  lemma {:induction false} SplitIsLeftmost(d: Bytes, s: Bytes)
    requires d != []
    ensures Joined(d, Frames(d, s)) + Tail(d, s) == s
    ensures forall f :: f in Frames(d, s) ==> FirstEnd(d, f + d)
    ensures Absent(d, Tail(d, s))
    decreases |s|
  {
    hide Absent, EndOf, Fits, FirstEnd, Frames, Tail, Joined;
    var e := EndOf(d, s);
    if e == 0 {
      SplitNothing(d, s);
    } else {
      var payload, more := s[..e - |d|], s[e..];
      SplitIsLeftmost(d, more);
      FirstEndsWith(d, s[..e]);
      assert s[..e][..e - |d|] == payload;
      assert s == (payload + d) + more;
      SplitOnce(d, s);
      JoinedCons(d, payload, Frames(d, more), Tail(d, more));
    }
  }

  lemma SplitNothing(d: Bytes, s: Bytes)
    requires d != [] && EndOf(d, s) == 0
    ensures Frames(d, s) == [] && Tail(d, s) == s && Absent(d, s) && Joined(d, []) == []
  {
    hide Absent;
  }

  lemma SplitOnce(d: Bytes, s: Bytes)
    requires d != [] && EndOf(d, s) != 0
    ensures var e := EndOf(d, s); Frames(d, s) == [s[..e - |d|]] + Frames(d, s[e..]) && Tail(d, s) == Tail(d, s[e..])
  {
    hide EndOf;
  }

  lemma JoinedCons(d: Bytes, payload: Bytes, rest: seq<Bytes>, tail: Bytes)
    ensures Joined(d, [payload] + rest) + tail == (payload + d) + (Joined(d, rest) + tail)
  {
    assert ([payload] + rest)[1..] == rest;
  }

  lemma FirstEndsWith(d: Bytes, t: Bytes)
    requires d != [] && FirstEnd(d, t)
    ensures |d| <= |t| && t == t[..|t| - |d|] + d
  {
    EndsWith(d, t);
  }

  lemma EndsWith(d: Bytes, t: Bytes)
    requires Fits(d, t, |d|)
    ensures t == t[..|t| - |d|] + d
  {
    assert d[..|d|] == d;
  }

  /** How many bytes at the end of `s` may still become a delimiter. */
  function Pending(d: Bytes, s: Bytes): (m: nat)
    requires d != []
    ensures Longest(d, s, m)
  {
    PendingFrom(d, s, |d| - 1)
  }

  function PendingFrom(d: Bytes, s: Bytes, k: nat): (m: nat)
    requires k < |d| && forall j :: k < j < |d| ==> !Fits(d, s, j)
    ensures Longest(d, s, m)
  {
    if Fits(d, s, k) then k else PendingFrom(d, s, k - 1)
  }

  function Render(d: Bytes, withDelimiter: bool, frames: seq<Bytes>): (r: seq<Bytes>)
    ensures |r| == |frames|
  {
    seq(|frames|, i requires 0 <= i < |frames| => if withDelimiter then frames[i] + d else frames[i])
  }

  datatype Settings = Settings(delimiter: Bytes, withDelimiter: bool, limit: Option<nat>)

  /** The pushes and the verdict after input `s`, whatever its chunks were. */
  function Expected(c: Settings, s: Bytes): Outcome
    requires c.delimiter != []
  {
    var frames, tail := Frames(c.delimiter, s), Tail(c.delimiter, s);
    var short := Short(c.limit, frames);
    Outcome(Render(c.delimiter, c.withDelimiter, short),
            short != frames || TooLong(c.limit, |tail| - Pending(c.delimiter, tail)))
  }

  /** The same once the input has ended: a partial delimiter counts as payload. */
  function ExpectedAtEnd(c: Settings, s: Bytes): Outcome
    requires c.delimiter != []
  {
    var frames, tail := Frames(c.delimiter, s), Tail(c.delimiter, s);
    var short := Short(c.limit, frames);
    var overflow := short != frames || TooLong(c.limit, |tail|);
    Outcome(Render(c.delimiter, c.withDelimiter, short) + (if overflow then [] else [tail]), overflow)
  }

  /** Overflow means exactly that a completed payload or the final tail exceeds the limit. */
  lemma OverflowMeans(c: Settings, s: Bytes)
    requires c.delimiter != []
    ensures ExpectedAtEnd(c, s).overflow
            <==> c.limit.Some? && (|Tail(c.delimiter, s)| > c.limit.value
                                   || exists f :: f in Frames(c.delimiter, s) && |f| > c.limit.value)
  {
    ShortMeans(c.limit, Frames(c.delimiter, s));
  }

  /** Unless it overflows, the parser loses nothing: its pushes, with the delimiters they include or
    leave out, are the input, and the last one is what follows the last delimiter. */
  lemma PushesAreTheInput(c: Settings, s: Bytes)
    requires c.delimiter != [] && !ExpectedAtEnd(c, s).overflow
    ensures var pushed := ExpectedAtEnd(c, s).pushed;
            && pushed != [] && Absent(c.delimiter, pushed[|pushed| - 1])
            && (if c.withDelimiter then Flat(pushed) == s
                else Joined(c.delimiter, pushed[..|pushed| - 1]) + pushed[|pushed| - 1] == s)
  {
    hide Absent, Flat, Frames, Tail, Render, Short, Joined;
    var frames, tail := Frames(c.delimiter, s), Tail(c.delimiter, s);
    SplitIsLeftmost(c.delimiter, s);
    RenderedWhole(c.delimiter, frames);
    FlatSnoc(Render(c.delimiter, c.withDelimiter, frames), tail);
  }

  lemma {:induction false} RenderedWhole(d: Bytes, frames: seq<Bytes>)
    ensures Flat(Render(d, true, frames)) == Joined(d, frames)
    ensures Render(d, false, frames) == frames
  {
    if frames != [] {
      RenderedWhole(d, frames[1..]);
      assert Render(d, true, frames)[1..] == Render(d, true, frames[1..]);
    }
  }

  // ---- Splitting a longer input --------------------------------------------------------------------

  lemma NotEarlier(d: Bytes, s: Bytes, r: nat, e: nat)
    requires d != [] && r < e <= |s| && FirstEnd(d, s[..e])
    ensures !Fits(d, s[..r], |d|)
  {
    assert s[..e][..e - 1][..r] == s[..r];
  }

  lemma FirstEndUnique(d: Bytes, s: Bytes, e: nat)
    requires d != [] && e <= |s| && FirstEnd(d, s[..e])
    ensures EndOf(d, s) == e
  {
    var r := EndOf(d, s);
    if r < e { NotEarlier(d, s, r, e); }
    if e < r { NotEarlier(d, s, e, r); }
  }

  lemma {:induction false} SplitContinues(d: Bytes, x: Bytes, y: Bytes)
    requires d != []
    ensures Frames(d, x + y) == Frames(d, x) + Frames(d, Tail(d, x) + y)
    ensures Tail(d, x + y) == Tail(d, Tail(d, x) + y)
    decreases |x|
  {
    hide Absent, FirstEnd, EndOf, Frames, Tail;
    var e := EndOf(d, x);
    if e == 0 {
      SplitNothing(d, x);
    } else {
      assert (x + y)[..e] == x[..e];
      FirstEndUnique(d, x + y, e);
      assert (x + y)[e..] == x[e..] + y;
      assert (x + y)[..e - |d|] == x[..e - |d|];
      SplitOnce(d, x);
      SplitOnce(d, x + y);
      SplitContinues(d, x[e..], y);
    }
  }

  // ---- Payload that can no longer become a delimiter -----------------------------------------------

  /** More input never takes back payload bytes. */
  lemma DefiniteGrows(d: Bytes, t: Bytes, y: Bytes)
    requires d != [] && Absent(d, t) && Absent(d, t + y)
    ensures |t| - Pending(d, t) <= |t + y| - Pending(d, t + y)
  {
    var k := Pending(d, t + y);
    if k > |y| { FitsInto(d, t, y, k); }
  }

  lemma DefiniteStays(d: Bytes, t: Bytes, y: Bytes)
    requires d != [] && Absent(d, t) && EndOf(d, t + y) != 0
    ensures |t| - Pending(d, t) <= EndOf(d, t + y) - |d|
  {
    var e := EndOf(d, t + y);
    if e <= |t| {
      TakePrefix(t, y, e);
    } else {
      var u := y[..e - |t|];
      assert (t + y)[..e] == t + u;
      if |u| < |d| { FitsInto(d, t, u, |d|); }
    }
  }

  /** An overflow verdict is final, so it does not matter at which chunk the stream fails. */
  lemma OverflowIsFinal(c: Settings, x: Bytes, y: Bytes)
    requires c.delimiter != [] && Expected(c, x).overflow
    ensures Expected(c, x + y) == Expected(c, x) == ExpectedAtEnd(c, x + y)
  {
    var d, limit := c.delimiter, c.limit;
    var frames, tail := Frames(d, x), Tail(d, x);
    SplitContinues(d, x, y);
    SplitIsLeftmost(d, x);
    ShortStops(limit, frames, Frames(d, tail + y));
    if Short(limit, frames) == frames { TailStaysLong(c, tail, y); }
  }

  lemma TailStaysLong(c: Settings, tail: Bytes, y: Bytes)
    requires c.delimiter != [] && Absent(c.delimiter, tail)
    requires TooLong(c.limit, |tail| - Pending(c.delimiter, tail))
    ensures Expected(c, tail + y) == Outcome([], true) == ExpectedAtEnd(c, tail + y)
  {
    var d, s := c.delimiter, tail + y;
    var e := EndOf(d, s);
    if e == 0 {
      DefiniteGrows(d, tail, y);
    } else {
      DefiniteStays(d, tail, y);
      assert |s[..e - |d|]| == e - |d|;
    }
  }

  // ---- The parser ------------------------------------------------------------------------------------

  /** One more completed frame that fits. */
  lemma FrameCompleted(c: Settings, x: Bytes, y: Bytes)
    requires c.delimiter != [] && !Expected(c, x).overflow
    requires FirstEnd(c.delimiter, Tail(c.delimiter, x) + y)
    ensures var t := Tail(c.delimiter, x) + y;
            var payload := t[..|t| - |c.delimiter|];
            && Tail(c.delimiter, x + y) == []
            && (!TooLong(c.limit, |payload|) ==>
                  Expected(c, x + y)
                  == Outcome(Expected(c, x).pushed + [if c.withDelimiter then t else payload], false))
            && (TooLong(c.limit, |payload|) ==> Expected(c, x + y) == Outcome(Expected(c, x).pushed, true))
  {
    hide Absent, FirstEnd, EndOf, Fits, Longest, Frames, Tail, PendingFrom;
    var d := c.delimiter;
    var frames, t := Frames(d, x), Tail(d, x) + y;
    SplitContinues(d, x, y);
    OneFrame(d, t);
    var payload := t[..|t| - |d|];
    ShortStops(c.limit, frames, [payload]);
    ShortOne(c.limit, payload);
    PendingEmpty(d);
    RenderSnoc(d, c.withDelimiter, frames, payload);
  }

  lemma OneFrame(d: Bytes, t: Bytes)
    requires d != [] && FirstEnd(d, t)
    ensures |d| <= |t| && Frames(d, t) == [t[..|t| - |d|]] && Tail(d, t) == [] && t == t[..|t| - |d|] + d
  {
    assert t[..|t|] == t;
    FirstEndUnique(d, t, |t|);
    assert EndOf(d, []) == 0 && t[|t|..] == [];
    EndsWith(d, t);
  }

  lemma ExpectedEmpty(c: Settings)
    requires c.delimiter != []
    ensures Expected(c, []) == Outcome([], false) && Tail(c.delimiter, []) == []
  {
    PendingEmpty(c.delimiter);
    assert EndOf(c.delimiter, []) == 0;
  }

  lemma PendingEmpty(d: Bytes)
    requires d != []
    ensures Pending(d, []) == 0
  {
  }

  lemma RenderSnoc(d: Bytes, withDelimiter: bool, frames: seq<Bytes>, last: Bytes)
    ensures Render(d, withDelimiter, frames + [last])
            == Render(d, withDelimiter, frames) + [if withDelimiter then last + d else last]
  {
  }

  lemma LongestUnique(d: Bytes, s: Bytes, m: nat)
    requires d != [] && Longest(d, s, m)
    ensures Pending(d, s) == m
  {
  }

  /** Input without a further delimiter only extends the tail. */
  lemma TailExtended(c: Settings, x: Bytes, y: Bytes)
    requires c.delimiter != [] && !Expected(c, x).overflow && Absent(c.delimiter, Tail(c.delimiter, x) + y)
    ensures var t := Tail(c.delimiter, x) + y;
            && Tail(c.delimiter, x + y) == t
            && Expected(c, x + y)
               == Outcome(Expected(c, x).pushed, TooLong(c.limit, |t| - Pending(c.delimiter, t)))
  {
    var d := c.delimiter;
    var t := Tail(d, x) + y;
    SplitContinues(d, x, y);
    assert EndOf(d, t) == 0;
    assert Frames(d, x) + [] == Frames(d, x);
  }

  class DelimiterParser {
    const settings: Settings
    const bytes: ByteQueue
    const matcher: DelimiterMatcher
    var pushed: seq<Bytes>    // what the readable side has been given
    ghost var input: Bytes    // the concatenation of all chunks
    ghost var failed: bool

    ghost predicate Valid()
      reads this, bytes, matcher, matcher.prefix
    {
      && bytes.Valid() && matcher.Valid()
      && settings.delimiter == matcher.delimiter != []
      && (failed ==> bytes.Contents() == [])
      && (!failed ==>
            && Expected(settings, input) == Outcome(pushed, false)
            && bytes.Contents() == Tail(settings.delimiter, input) == matcher.seen)
    }

    constructor (settings: Settings)
      requires settings.delimiter != []    // the source throws a TypeError
      ensures Valid() && this.settings == settings && input == [] && !failed && pushed == []
      ensures fresh(bytes) && fresh(matcher) && fresh(matcher.prefix)
    {
      hide Expected, ExpectedAtEnd, Frames, Tail, EndOf, Fits, Absent, Longest, Table, Stored, Pending;
      hide ByteQueue.Valid, DelimiterMatcher.Valid;
      this.settings := settings;
      bytes := new ByteQueue();
      matcher := new DelimiterMatcher(settings.delimiter);
      pushed, input, failed := [], [], false;
      new;
      ExpectedEmpty(settings);
    }

    /** One chunk.  Pushes and verdict are those of the whole input so far. */
    method Transform(chunk: Bytes) returns (ok: bool)
      requires Valid() && !failed
      modifies this, bytes, matcher
      ensures Valid() && failed == !ok && input == old(input) + chunk
      ensures Expected(settings, input) == Outcome(pushed, !ok)
      ensures ok && settings.limit.Some? ==>
                |bytes.Contents()| <= settings.limit.value + |settings.delimiter| - 1
    {
      hide Expected, ExpectedAtEnd, Frames, Tail, EndOf, Fits, Absent, Longest, Table, Stored, Pending;
      hide ByteQueue.Valid, DelimiterMatcher.Valid;
      var offset := 0;
      ghost var before := input;
      assert before + chunk[..0] == before;
      var end := matcher.Find(chunk, offset);
      while end != -1
        invariant bytes.Valid() && matcher.Valid() && 0 <= offset <= |chunk|
        invariant settings.delimiter == matcher.delimiter != [] && input == before && !failed
        invariant Expected(settings, before + chunk[..offset]) == Outcome(pushed, false)
        invariant bytes.Contents() == Tail(settings.delimiter, before + chunk[..offset])
        invariant end == -1 ==> matcher.seen == bytes.Contents() + chunk[offset..]
        invariant end != -1 ==> offset < end <= |chunk| && matcher.seen == []
                                && FirstEnd(settings.delimiter, bytes.Contents() + chunk[offset..end])
        decreases |chunk| - offset, end
      {
        ghost var x := before + chunk[..offset];
        ghost var t := bytes.Contents() + chunk[offset..end];
        FrameCompleted(settings, x, chunk[offset..end]);
        assert x + chunk[offset..end] == before + chunk[..end];
        if TooLong(settings.limit, bytes.length + end - offset - |matcher.delimiter|) {
          OverflowIsFinal(settings, before + chunk[..end], chunk[end..]);
          assert before + chunk[..end] + chunk[end..] == before + chunk;
          Overflow(chunk);
          return false;
        }
        FitsLength(settings.delimiter, t, |settings.delimiter|);
        PushFrame(chunk, offset, end);
        offset := end;
        end := matcher.Find(chunk, offset);
      }
      ok := KeepRest(chunk, offset);
    }

    /** What follows the last delimiter of the chunk is buffered, if it can still be a frame. */
    method KeepRest(chunk: Bytes, offset: nat) returns (ok: bool)
      requires bytes.Valid() && matcher.Valid() && offset <= |chunk| && !failed
      requires settings.delimiter == matcher.delimiter != []
      requires Expected(settings, input + chunk[..offset]) == Outcome(pushed, false)
      requires bytes.Contents() == Tail(settings.delimiter, input + chunk[..offset])
      requires matcher.seen == bytes.Contents() + chunk[offset..]
      modifies this`input, this`failed, bytes
      ensures Valid() && failed == !ok && input == old(input) + chunk
      ensures Expected(settings, input) == Outcome(pushed, !ok)
      ensures ok && settings.limit.Some? ==>
                |bytes.Contents()| <= settings.limit.value + |settings.delimiter| - 1
    {
      hide Expected, ExpectedAtEnd, Frames, Tail, EndOf, Fits, Absent, Longest, Table, Stored, Pending;
      hide ByteQueue.Valid, DelimiterMatcher.Valid;
      ghost var x := input + chunk[..offset];
      matcher.StateIsLongest();
      TailExtended(settings, x, chunk[offset..]);
      assert x + chunk[offset..] == input + chunk;
      LongestUnique(settings.delimiter, matcher.seen, matcher.matched);
      if TooLong(settings.limit, bytes.length + |chunk| - offset - matcher.matched) {
        Overflow(chunk);
        return false;
      }
      bytes.Append(chunk[offset..]);
      input := input + chunk;
      assert bytes.Contents() == Tail(settings.delimiter, input) == matcher.seen;
      return true;
    }

    /** A completed frame: what is buffered and the bytes of `chunk` up to `end`. */
    method PushFrame(chunk: Bytes, offset: nat, end: nat)
      requires bytes.Valid() && offset <= end <= |chunk|
      requires |matcher.delimiter| <= bytes.length + end - offset
      modifies this`pushed, bytes
      ensures bytes.Valid() && bytes.Contents() == []
      ensures var t := old(bytes.Contents()) + chunk[offset..end];
              pushed == old(pushed) + [if settings.withDelimiter then t else t[..|t| - |matcher.delimiter|]]
    {
      hide ByteQueue.Valid, Stored;
      ghost var t := bytes.Contents() + chunk[offset..end];
      assert t[..|t|] == t;
      var excluded := if settings.withDelimiter then 0 else |matcher.delimiter|;
      if bytes.length > 0 {
        bytes.Append(chunk[offset..end]);
        var frame := bytes.Take(bytes.length - excluded);
        pushed := pushed + [frame.value];
        bytes.Clear();
      } else {
        assert t == chunk[offset..end] && t[..|t| - excluded] == chunk[offset..end - excluded];
        pushed := pushed + [chunk[offset..end - excluded]];
      }
    }

    /** `#overflow` releases the buffered frame. */
    method Overflow(ghost chunk: Bytes)
      requires bytes.Valid() && matcher.Valid() && settings.delimiter == matcher.delimiter != []
      modifies this`input, this`failed, bytes
      ensures Valid() && failed && input == old(input) + chunk
    {
      bytes.Clear();
      failed := true;
      input := input + chunk;
    }

    /** The end of the input. */
    method Flush() returns (ok: bool)
      requires Valid() && !failed
      modifies this, bytes
      ensures input == old(input) && ExpectedAtEnd(settings, input) == Outcome(pushed, !ok)
      ensures bytes.Valid() && bytes.Contents() == []
    {
      hide Expected, ExpectedAtEnd, Frames, Tail, EndOf, Fits, Absent, Longest, Table, Stored, Pending;
      hide ByteQueue.Valid, DelimiterMatcher.Valid;
      if TooLong(settings.limit, bytes.length) {
        EndOfInput(settings, input);
        Overflow([]);
        input := old(input);
        return false;
      }
      EndOfInput(settings, input);
      ghost var tail := bytes.Contents();
      assert tail[..|tail|] == tail && tail[|tail|..] == [];
      var last := bytes.Take(bytes.length);
      pushed := pushed + [last.value];
      return true;
    }
  }

  lemma EndOfInput(c: Settings, s: Bytes)
    requires c.delimiter != [] && !Expected(c, s).overflow
    ensures var tail := Tail(c.delimiter, s);
            ExpectedAtEnd(c, s)
            == if TooLong(c.limit, |tail|) then Outcome(Expected(c, s).pushed, true)
               else Outcome(Expected(c, s).pushed + [tail], false)
  {
  }

  /** A whole stream in chunks: after a failure Node destroys the parser and no further chunk
    arrives.  The result depends only on the concatenation of the chunks. */
  method ParseStream(settings: Settings, chunks: seq<Bytes>) returns (outcome: Outcome)
    requires settings.delimiter != []
    ensures outcome == ExpectedAtEnd(settings, Flat(chunks))
  {
    hide Expected, ExpectedAtEnd, Frames, Tail, EndOf, FirstEnd, Fits, Absent, Longest, Table, Stored, Pending;
    hide ByteQueue.Valid, DelimiterMatcher.Valid;
    var parser := new DelimiterParser(settings);
    assert Flat(chunks[..0]) == [];
    for i := 0 to |chunks|
      invariant parser.Valid() && !parser.failed && parser.settings == settings
      invariant fresh(parser) && fresh(parser.bytes) && fresh(parser.matcher) && fresh(parser.matcher.prefix)
      invariant parser.input == Flat(chunks[..i])
    {
      FlatSnoc(chunks[..i], chunks[i]);
      assert chunks[..i + 1] == chunks[..i] + [chunks[i]];
      var ok := parser.Transform(chunks[i]);
      if !ok {
        FlatAppend(chunks[..i + 1], chunks[i + 1..]);
        assert chunks[..i + 1] + chunks[i + 1..] == chunks;
        OverflowIsFinal(settings, Flat(chunks[..i + 1]), Flat(chunks[i + 1..]));
        return Outcome(parser.pushed, true);
      }
    }
    assert chunks[..|chunks|] == chunks;
    var ok := parser.Flush();
    return Outcome(parser.pushed, !ok);
  }

  // ---- The matcher on its own --------------------------------------------------------------------------

  /** Where the leftmost non-overlapping delimiters of `s` end, counted from `base`. */
  function Ends(d: Bytes, s: Bytes, base: nat): seq<nat>
    requires d != []
    decreases |s|
  {
    var e := EndOf(d, s);
    if e == 0 then [] else [base + e] + Ends(d, s[e..], base + e)
  }

  lemma EndsOnce(d: Bytes, s: Bytes, base: nat)
    requires d != []
    ensures var e := EndOf(d, s);
            && (e == 0 ==> Ends(d, s, base) == [] && Tail(d, s) == s)
            && (e != 0 ==> Ends(d, s, base) == [base + e] + Ends(d, s[e..], base + e) && Tail(d, s) == Tail(d, s[e..]))
  {
    hide EndOf;
  }

  lemma {:induction false} EndsContinue(d: Bytes, x: Bytes, y: Bytes, base: nat)
    requires d != []
    ensures |Tail(d, x)| <= |x|
    ensures Ends(d, x + y, base) == Ends(d, x, base) + Ends(d, Tail(d, x) + y, base + |x| - |Tail(d, x)|)
    decreases |x|
  {
    hide Absent, FirstEnd, EndOf, Ends, Tail;
    var e := EndOf(d, x);
    EndsOnce(d, x, base);
    if e != 0 {
      assert (x + y)[..e] == x[..e];
      FirstEndUnique(d, x + y, e);
      assert (x + y)[e..] == x[e..] + y;
      EndsOnce(d, x + y, base);
      EndsContinue(d, x[e..], y, base + e);
    }
  }

  /** One more delimiter, ending where the stream `x + y` ends. */
  lemma EndFound(d: Bytes, x: Bytes, y: Bytes)
    requires d != [] && FirstEnd(d, Tail(d, x) + y)
    ensures Ends(d, x + y, 0) == Ends(d, x, 0) + [|x| + |y|] && Tail(d, x + y) == []
  {
    hide Absent, FirstEnd, EndOf;
    var t := Tail(d, x) + y;
    EndsContinue(d, x, y, 0);
    SplitContinues(d, x, y);
    OneFrame(d, t);
    assert t[..|t|] == t;
    FirstEndUnique(d, t, |t|);
    assert t[|t|..] == [] && EndOf(d, []) == 0;
  }

  /** No more delimiter. */
  lemma NoEndFound(d: Bytes, x: Bytes, y: Bytes)
    requires d != [] && Absent(d, Tail(d, x) + y)
    ensures Ends(d, x + y, 0) == Ends(d, x, 0) && Tail(d, x + y) == Tail(d, x) + y
  {
    hide Absent;
    EndsContinue(d, x, y, 0);
    SplitContinues(d, x, y);
    assert EndOf(d, Tail(d, x) + y) == 0;
  }

  /** Repeated `find` over any chunks: the ends reported are those of the whole stream, and the
    pending bytes are the longest proper prefix of the delimiter at its end. */
  method FindAll(delimiter: Bytes, chunks: seq<Bytes>) returns (ends: seq<nat>, pendingBytes: nat)
    requires delimiter != []
    ensures ends == Ends(delimiter, Flat(chunks), 0)
    ensures Longest(delimiter, Tail(delimiter, Flat(chunks)), pendingBytes)
  {
    hide Ends, Tail, EndOf, FirstEnd, Fits, Absent, Longest, Table, DelimiterMatcher.Valid;
    var matcher := new DelimiterMatcher(delimiter);
    var consumed: nat := 0;
    ends := [];
    EndsNothing(delimiter);
    assert Flat(chunks[..0]) == [];
    for i := 0 to |chunks|
      invariant matcher.Valid() && matcher.delimiter == delimiter && fresh(matcher) && fresh(matcher.prefix)
      invariant ends == Ends(delimiter, Flat(chunks[..i]), 0) && consumed == |Flat(chunks[..i])|
      invariant matcher.seen == Tail(delimiter, Flat(chunks[..i]))
    {
      FlatSnoc(chunks[..i], chunks[i]);
      assert chunks[..i + 1] == chunks[..i] + [chunks[i]];
      var more := FindInChunk(matcher, chunks[i], consumed, Flat(chunks[..i]));
      ends := ends + more;
      consumed := consumed + |chunks[i]|;
    }
    assert chunks[..|chunks|] == chunks;
    matcher.StateIsLongest();
    pendingBytes := matcher.matched;
  }

  lemma EndsNothing(d: Bytes)
    requires d != []
    ensures Ends(d, [], 0) == [] && Tail(d, []) == []
  {
    assert EndOf(d, []) == 0;
  }

  /** The loop of a parser over one chunk. */
  method FindInChunk(matcher: DelimiterMatcher, chunk: Bytes, consumed: nat, ghost before: Bytes)
    returns (ends: seq<nat>)
    requires matcher.Valid() && consumed == |before| && matcher.delimiter != []
    requires matcher.seen == Tail(matcher.delimiter, before)
    modifies matcher
    ensures matcher.Valid() && matcher.seen == Tail(matcher.delimiter, before + chunk)
    ensures Ends(matcher.delimiter, before + chunk, 0) == Ends(matcher.delimiter, before, 0) + ends
  {
    hide Ends, Tail, EndOf, FirstEnd, Fits, Absent, Longest, Table, DelimiterMatcher.Valid;
    ghost var d := matcher.delimiter;
    ends := [];
    var offset: nat := 0;
    assert before + chunk[..0] == before;
    var end := matcher.Find(chunk, offset);
    while end != -1
      invariant matcher.Valid() && offset <= |chunk|
      invariant Ends(d, before + chunk[..offset], 0) == Ends(d, before, 0) + ends
      invariant end == -1 ==> matcher.seen == Tail(d, before + chunk[..offset]) + chunk[offset..]
      invariant end != -1 ==> offset < end <= |chunk| && matcher.seen == []
                              && FirstEnd(d, Tail(d, before + chunk[..offset]) + chunk[offset..end])
      decreases |chunk| - offset, end
    {
      EndFound(d, before + chunk[..offset], chunk[offset..end]);
      assert before + chunk[..offset] + chunk[offset..end] == before + chunk[..end];
      ends := ends + [consumed + end];
      offset := end;
      end := matcher.Find(chunk, offset);
    }
    matcher.StateIsLongest();
    NoEndFound(d, before + chunk[..offset], chunk[offset..]);
    assert before + chunk[..offset] + chunk[offset..] == before + chunk;
  }
}
