/** Byte strings and the sequence vocabulary shared by every module. */
module Common {

  /** One octet of a JavaScript Buffer or a Rust byte slice. */
  type byte = x: int | 0 <= x < 256

  type Bytes = seq<byte>

  datatype Option<+T> = None | Some(value: T)

  function Min(a: int, b: int): int { if a < b then a else b }

  function Max(a: int, b: int): int { if a < b then b else a }

  /** Concatenation of a sequence of sequences. */
  function Flat<T>(parts: seq<seq<T>>): (r: seq<T>)
  {
    if parts == [] then [] else parts[0] + Flat(parts[1..])
  }

  lemma {:induction false} FlatAppend<T>(a: seq<seq<T>>, b: seq<seq<T>>)
    ensures Flat(a + b) == Flat(a) + Flat(b)
  {
    if a == [] {
      assert a + b == b;
    } else {
      assert (a + b)[1..] == a[1..] + b;
      FlatAppend(a[1..], b);
    }
  }

  lemma FlatOne<T>(a: seq<T>)
    ensures Flat([a]) == a
  {
    assert [a][1..] == [];
    assert Flat([a][1..]) == [];
  }

  lemma FlatSnoc<T>(parts: seq<seq<T>>, last: seq<T>)
    ensures Flat(parts + [last]) == Flat(parts) + last
  {
    FlatAppend(parts, [last]);
    FlatOne(last);
  }

  lemma {:induction false} FlatPrefix<T>(a: seq<seq<T>>, b: seq<seq<T>>)
    requires a <= b
    ensures Flat(a) <= Flat(b)
  {
    assert b == a + b[|a|..];
    FlatAppend(a, b[|a|..]);
  }

  // ---- Frames with a length limit ------------------------------------------------------------------

  /** What a parser pushes, and whether it fails because a frame is too long. */
  datatype Outcome = Outcome(pushed: seq<Bytes>, overflow: bool)

  predicate TooLong(limit: Option<nat>, length: int) { limit.Some? && length > limit.value }

  /** The frames before the first one that is too long. */
  function Short(limit: Option<nat>, frames: seq<Bytes>): seq<Bytes> {
    if frames == [] || TooLong(limit, |frames[0]|) then [] else [frames[0]] + Short(limit, frames[1..])
  }

  lemma {:induction false} ShortMeans(limit: Option<nat>, frames: seq<Bytes>)
    ensures Short(limit, frames) != frames <==> exists f :: f in frames && TooLong(limit, |f|)
    ensures Short(limit, frames) <= frames
    ensures forall f :: f in Short(limit, frames) ==> !TooLong(limit, |f|)
  {
    if frames != [] {
      ShortMeans(limit, frames[1..]);
      assert frames == [frames[0]] + frames[1..];
    }
  }

  lemma ShortStops(limit: Option<nat>, a: seq<Bytes>, b: seq<Bytes>)
    ensures Short(limit, a) != a ==> Short(limit, a + b) == Short(limit, a) && Short(limit, a + b) != a + b
    ensures Short(limit, a) == a ==> Short(limit, a + b) == a + Short(limit, b)
  {
    hide Short;
    ShortMeans(limit, a);
    if Short(limit, a) == a { ShortGoesOn(limit, a, b); } else { ShortHalts(limit, a, b); }
  }

  lemma {:induction false} ShortGoesOn(limit: Option<nat>, a: seq<Bytes>, b: seq<Bytes>)
    requires Short(limit, a) == a
    ensures Short(limit, a + b) == a + Short(limit, b)
  {
    if a == [] {
      assert a + b == b;
    } else {
      assert (a + b)[1..] == a[1..] + b;
      assert Short(limit, a)[1..] == Short(limit, a[1..]);
      ShortGoesOn(limit, a[1..], b);
      assert a == [a[0]] + a[1..];
    }
  }

  lemma {:induction false} ShortHalts(limit: Option<nat>, a: seq<Bytes>, b: seq<Bytes>)
    requires Short(limit, a) != a
    ensures Short(limit, a + b) == Short(limit, a) && |Short(limit, a)| < |a|
  {
    if !TooLong(limit, |a[0]|) {
      assert (a + b)[1..] == a[1..] + b;
      assert a == [a[0]] + a[1..];
      ShortHalts(limit, a[1..], b);
    }
  }

  lemma ShortOne(limit: Option<nat>, payload: Bytes)
    ensures Short(limit, [payload]) == if TooLong(limit, |payload|) then [] else [payload]
  {
    var one: seq<Bytes> := [payload];
    assert one[1..] == [];
  }

  /** What a byte-mode reader is given: an empty push delivers nothing. */
  function NonEmpty(pushed: seq<Bytes>): (r: seq<Bytes>)
    ensures forall f :: f in r ==> f != []
  {
    if pushed == [] then []
    else NonEmpty(pushed[..|pushed| - 1])
         + (if pushed[|pushed| - 1] == [] then [] else [pushed[|pushed| - 1]])
  }

  lemma NonEmptySnoc(pushed: seq<Bytes>, last: Bytes)
    ensures NonEmpty(pushed + [last]) == NonEmpty(pushed) + (if last == [] then [] else [last])
  {
    assert (pushed + [last])[..|pushed|] == pushed;
  }
}
