/** Finding a delimiter in a stream that arrives in chunks. */
module Matchers {
  import opened Common

  // ---- Prefixes and suffixes -------------------------------------------------------------------

  /** The first `k` bytes of `d` are the last `k` bytes of `s`. */
  predicate Fits(d: Bytes, s: Bytes, k: nat) {
    k <= |d| && k <= |s| && d[..k] == s[|s| - k..]
  }

  /** `m` is the longest proper prefix of `d` that ends `s`. */
  ghost predicate Longest(d: Bytes, s: Bytes, m: nat) {
    m < |d| && Fits(d, s, m) && forall k :: m < k < |d| ==> !Fits(d, s, k)
  }

  /** `d` does not occur in `s`. */
  ghost predicate Absent(d: Bytes, s: Bytes) {
    forall e :: 0 <= e <= |s| ==> !Fits(d, s[..e], |d|)
  }

  /** Entry `i` of the failure table: the longest proper border of `d[..i + 1]`. */
  ghost predicate Border(d: Bytes, i: nat, m: nat)
    requires i < |d|
  {
    var s := d[..i + 1];
    m <= i && Fits(d, s, m) && forall k :: m < k <= i ==> !Fits(d, s, k)
  }

  ghost predicate Table(d: Bytes, prefix: seq<nat>) {
    |prefix| == |d| && forall i :: 0 <= i < |d| ==> Border(d, i, prefix[i])
  }

  lemma FitsSnoc(d: Bytes, s: Bytes, b: byte, k: nat)
    requires 0 < k <= |d|
    ensures Fits(d, s + [b], k) <==> Fits(d, s, k - 1) && d[k - 1] == b
  {
    if k <= |s| + 1 {
      assert (s + [b])[|s| + 1 - k..] == s[|s| + 1 - k..] + [b];
      assert d[..k] == d[..k - 1] + [d[k - 1]];
      if Fits(d, s + [b], k) {
        assert d[..k][..k - 1] == d[..k - 1];
        assert (s[|s| + 1 - k..] + [b])[..k - 1] == s[|s| + 1 - k..];
        assert d[..k][k - 1] == b;
      }
    }
  }

  /** Of two prefixes of `d` that end `s`, the shorter one ends the longer one. */
  lemma FitsChain(d: Bytes, s: Bytes, k: nat, m: nat)
    requires k <= m && Fits(d, s, m)
    ensures Fits(d, s, k) <==> Fits(d, d[..m], k)
  {
    assert s[|s| - m..][m - k..] == s[|s| - k..];
  }

  /** A suffix that is long enough decides whether a prefix fits. */
  lemma FitsSuffix(d: Bytes, s: Bytes, t: Bytes, k: nat)
    requires k <= |t|
    ensures Fits(d, s + t, k) <==> Fits(d, t, k)
  {
    assert (s + t)[|s + t| - k..] == t[|t| - k..];
  }

  /** A prefix that reaches into `s` leaves a shorter prefix at the end of `s`. */
  lemma FitsInto(d: Bytes, s: Bytes, t: Bytes, k: nat)
    requires Fits(d, s + t, k) && |t| <= k
    ensures Fits(d, s, k - |t|)
  {
    var j := k - |t|;
    assert (s + t)[|s + t| - k..] == s[|s| - j..] + t;
    assert d[..j] == d[..k][..j];
    assert (s[|s| - j..] + t)[..j] == s[|s| - j..];
  }

  /** The fallback step of the automaton: when the candidate of length `m` does not extend, the
    next one to try is the border of `d[..m]`. */
  lemma Fallback(d: Bytes, s: Bytes, m: nat, border: nat)
    requires 0 < m <= |d| && Fits(d, s, m) && Border(d, m - 1, border)
    ensures border < m && Fits(d, s, border)
    ensures forall k :: border < k < m ==> !Fits(d, s, k)
  {
    FitsChain(d, s, border, m);
    forall k | border < k < m ensures !Fits(d, s, k) { FitsChain(d, s, k, m); }
  }

  /** The automaton step: `m` is the longest candidate that extends by `b`, or 0. */
  lemma Extend(d: Bytes, s: Bytes, b: byte, m: nat)
    requires m < |d| && Fits(d, s, m) && (m > 0 ==> d[m] == b)
    requires forall k :: m < k < |d| && Fits(d, s, k) ==> d[k] != b
    ensures var n := if d[m] == b then m + 1 else m;
            Fits(d, s + [b], n) && forall k :: n < k <= |d| ==> !Fits(d, s + [b], k)
  {
    var n := if d[m] == b then m + 1 else m;
    if n > 0 { FitsSnoc(d, s, b, n); }
    forall k | n < k <= |d| ensures !Fits(d, s + [b], k) { FitsSnoc(d, s, b, k); }
  }

  lemma AbsentSnoc(d: Bytes, s: Bytes, b: byte)
    requires Absent(d, s) && !Fits(d, s + [b], |d|)
    ensures Absent(d, s + [b])
  {
    forall e | 0 <= e <= |s + [b]| ensures !Fits(d, (s + [b])[..e], |d|) {
      assert e <= |s| ==> (s + [b])[..e] == s[..e];
      assert e == |s| + 1 ==> (s + [b])[..e] == s + [b];
    }
  }

  // ---- The matcher -------------------------------------------------------------------------------

  /** `needle` occurs in `chunk` at index `i`. */
  predicate OccursAt(chunk: Bytes, needle: Bytes, i: nat) {
    i + |needle| <= |chunk| && chunk[i..i + |needle|] == needle
  }

  /** Buffer.indexOf. */
  function IndexOf(chunk: Bytes, needle: Bytes, from: nat): (found: int)
    requires from <= |chunk|
    ensures found == -1 || (from <= found && OccursAt(chunk, needle, found))
    ensures forall i: nat :: from <= i && (found == -1 || i < found) ==> !OccursAt(chunk, needle, i)
    decreases |chunk| - from
  {
    if |chunk| - from < |needle| then -1
    else if OccursAt(chunk, needle, from) then from
    else IndexOf(chunk, needle, from + 1)
  }

  class DelimiterMatcher {
    const delimiter: Bytes
    const prefix: array<nat>
    var matched: nat
    ghost var seen: Bytes     // the stream since the last match
    ghost var stepped: nat    // bytes given to the automaton
    ghost var fallbacks: nat  // failure links followed

    ghost predicate Valid()
      reads this, prefix
    {
      && delimiter != [] && Table(delimiter, prefix[..])
      && Longest(delimiter, seen, matched) && Absent(delimiter, seen)
      && fallbacks + matched <= stepped
    }

    lemma StateIsLongest()
      requires Valid()
      ensures delimiter != [] && Longest(delimiter, seen, matched) && Absent(delimiter, seen)
    {
    }

    constructor (delimiter: Bytes)
      requires delimiter != []    // the source throws a TypeError
      ensures Valid() && this.delimiter == delimiter && seen == [] && matched == 0 && fresh(prefix)
      ensures stepped == |delimiter|
    {
      hide Border, Fits;
      this.delimiter := delimiter;
      prefix := new nat[|delimiter|](_ => 0);
      new;
      var i: nat, matched: nat := 1, 0;
      ghost var links := 0;
      FitsNothing(delimiter, delimiter[..1]);
      while i < |delimiter|
        invariant 1 <= i <= |delimiter| && prefix.Length == |delimiter|
        invariant Border(delimiter, i - 1, matched)
        invariant forall j :: 0 <= j < i ==> Border(delimiter, j, prefix[j])
        invariant links + matched <= i - 1
      {
        ghost var s, b := delimiter[..i], delimiter[i];
        BorderMeans(delimiter, i - 1, matched);
        while matched > 0 && delimiter[i] != delimiter[matched]
          invariant forall j :: 0 <= j < i ==> Border(delimiter, j, prefix[j])
          invariant matched < i && Fits(delimiter, s, matched)
          invariant forall k :: matched < k < i && Fits(delimiter, s, k) ==> delimiter[k] != b
          invariant links + matched <= i - 1
        {
          Fallback(delimiter, s, matched, prefix[matched - 1]);
          matched := prefix[matched - 1];
          links := links + 1;
        }
        ExtendBorder(delimiter, i, matched);
        if delimiter[i] == delimiter[matched] { matched := matched + 1; }
        prefix[i] := matched;
        assert Border(delimiter, i, prefix[i]);
        i := i + 1;
      }
      this.matched, seen := 0, [];
      stepped, fallbacks := |delimiter|, links;
      FitsNothing(delimiter, []);
    }

    /** One byte of the automaton, over the stream `s` it has been run on. */
    method Advance(b: byte, ghost s: Bytes) returns (found: bool)
      requires delimiter != [] && Table(delimiter, prefix[..]) && Longest(delimiter, s, matched)
      requires fallbacks + matched <= stepped
      modifies this`matched, this`stepped, this`fallbacks
      ensures found <==> Fits(delimiter, s + [b], |delimiter|)
      ensures if found then matched == 0 else Longest(delimiter, s + [b], matched)
      ensures fallbacks + matched <= stepped == old(stepped) + 1
    {
      while matched > 0 && b != delimiter[matched]
        invariant matched < |delimiter| && Fits(delimiter, s, matched)
        invariant forall k :: matched < k < |delimiter| && Fits(delimiter, s, k) ==> delimiter[k] != b
        invariant fallbacks + matched <= stepped == old(stepped)
      {
        assert Border(delimiter, matched - 1, prefix[..][matched - 1]);
        Fallback(delimiter, s, matched, prefix[matched - 1]);
        matched := prefix[matched - 1];
        fallbacks := fallbacks + 1;
      }
      Extend(delimiter, s, b, matched);
      stepped := stepped + 1;
      if b == delimiter[matched] { matched := matched + 1; }
      if matched != |delimiter| { return false; }
      matched := 0;
      return true;
    }

    /** The end of the next delimiter in `chunk` at or after `from`, counting bytes of earlier
      chunks; -1 if there is none, with the longest partial delimiter retained. */
    method Find(chunk: Bytes, from: nat) returns (end: int)
      requires Valid() && from <= |chunk|
      modifies this
      ensures Valid()
      ensures end == -1 ==> seen == old(seen) + chunk[from..]
      ensures end != -1 ==> from < end <= |chunk| && seen == []
                            && FirstEnd(delimiter, old(seen) + chunk[from..end])
    {
      hide Longest, Absent, Fits, Table, IndexOf, OccursAt;
      var offset := from;
      ghost var s := seen;
      assert s == seen + chunk[from..offset];
      while offset < |chunk| && matched > 0
        invariant from <= offset <= |chunk| && s == old(seen) + chunk[from..offset]
        invariant Table(delimiter, prefix[..]) && Longest(delimiter, s, matched) && Absent(delimiter, s)
        invariant fallbacks + matched <= stepped && seen == old(seen)
      {
        var b := chunk[offset];
        offset := offset + 1;
        var found := Advance(b, s);
        assert old(seen) + chunk[from..offset] == s + [b];
        if found {
          seen := [];
          assert (s + [b])[..|s|] == s;
          FitsNothing(delimiter, []);
          return offset;
        }
        AbsentSnoc(delimiter, s, b);
        s := s + [b];
      }
      seen := s;
      if offset == |chunk| { return -1; }
      end := FindAhead(chunk, offset);
      if end == -1 {
        assert old(seen) + chunk[from..] == s + chunk[offset..];
      } else {
        assert old(seen) + chunk[from..end] == s + chunk[offset..end];
      }
    }

    /** With no partial match, the rest of the chunk is searched at once. */
    method FindAhead(chunk: Bytes, offset: nat) returns (end: int)
      requires Valid() && offset < |chunk| && matched == 0
      modifies this
      ensures Valid()
      ensures end == -1 ==> seen == old(seen) + chunk[offset..]
      ensures end != -1 ==> offset < end <= |chunk| && seen == []
                            && FirstEnd(delimiter, old(seen) + chunk[offset..end])
    {
      hide Longest, Absent, Fits, Table, IndexOf, OccursAt;
      ghost var s := seen;
      var found := IndexOf(chunk, delimiter, offset);
      if found != -1 {
        OccursFits(chunk, delimiter, found);
        IndexIsFirst(delimiter, s, chunk, offset, found);
        end := found + |delimiter|;
        seen := [];
        FitsNothing(delimiter, []);
        return;
      }
      // Complete matches are excluded; only the last bytes can begin a delimiter.
      var start := Max(offset, |chunk| - |delimiter| + 1);
      FitsNothing(delimiter, chunk[start..start]);
      for i := start to |chunk|
        invariant Table(delimiter, prefix[..]) && Longest(delimiter, chunk[start..i], matched)
        invariant fallbacks + matched <= stepped
      {
        assert chunk[start..i + 1] == chunk[start..i] + [chunk[i]];
        var complete := Advance(chunk[i], chunk[start..i]);
        if complete { FitsLength(delimiter, chunk[start..i + 1], |delimiter|); }
      }
      FitsLongest(delimiter, chunk[start..|chunk|], matched);
      assert chunk[start..|chunk|] == chunk[start..];
      SuffixDecides(delimiter, s, chunk, offset, start, matched);
      seen := s + chunk[offset..];
      return -1;
    }
  }

  /** `t` ends with the first occurrence of `d`. */
  ghost predicate FirstEnd(d: Bytes, t: Bytes) {
    t != [] && Fits(d, t, |d|) && Absent(d, t[..|t| - 1])
  }

  /** When no prefix of `d` ends `s`, an occurrence in the continued stream lies inside the chunk. */
  lemma NoStraddle(d: Bytes, s: Bytes, chunk: Bytes, offset: nat, e: nat)
    requires d != [] && Longest(d, s, 0) && Absent(d, s) && offset <= |chunk|
    requires e <= |s| + |chunk| - offset && Fits(d, (s + chunk[offset..])[..e], |d|)
    ensures |s| + |d| <= e && OccursAt(chunk, d, offset + e - |d| - |s|)
  {
    if e <= |s| {
      TakePrefix(s, chunk[offset..], e);
    } else {
      var u := chunk[offset..offset + e - |s|];
      assert (s + chunk[offset..])[..e] == s + u;
      if |u| < |d| {
        FitsInto(d, s, u, |d|);
      } else {
        FitsSuffix(d, s, u, |d|);
        assert u[|u| - |d|..] == chunk[offset + |u| - |d|..offset + |u|];
        assert d[..|d|] == d;
      }
    }
  }

  lemma TakePrefix(s: Bytes, t: Bytes, e: nat)
    requires e <= |s|
    ensures (s + t)[..e] == s[..e]
  {
  }

  lemma IndexFits(d: Bytes, s: Bytes, chunk: Bytes, offset: nat, found: nat)
    requires offset <= found && OccursAt(chunk, d, found)
    ensures Fits(d, s + chunk[offset..found + |d|], |d|)
  {
    var t := chunk[offset..found + |d|];
    assert t[|t| - |d|..] == chunk[found..found + |d|];
    assert d[..|d|] == d;
    FitsSuffix(d, s, t, |d|);
  }

  lemma IndexIsFirst(d: Bytes, s: Bytes, chunk: Bytes, offset: nat, found: nat)
    requires d != [] && Longest(d, s, 0) && Absent(d, s) && offset <= |chunk| && found == IndexOf(chunk, d, offset)
    ensures FirstEnd(d, s + chunk[offset..found + |d|])
  {
    hide Fits, OccursAt;
    OccursFits(chunk, d, found);
    var t := s + chunk[offset..found + |d|];
    IndexFits(d, s, chunk, offset, found);
    var u := t[..|t| - 1];
    assert t == (s + chunk[offset..])[..|t|];
    forall e | 0 <= e <= |u| ensures !Fits(d, u[..e], |d|) {
      assert u[..e] == (s + chunk[offset..])[..e];
      if Fits(d, u[..e], |d|) { NoStraddle(d, s, chunk, offset, e); }
    }
  }

  lemma FitsLength(d: Bytes, s: Bytes, k: nat)
    requires Fits(d, s, k)
    ensures k <= |s|
  {
  }

  lemma FitsLongest(d: Bytes, s: Bytes, m: nat)
    requires Longest(d, s, m)
    ensures m <= |s| && m < |d|
  {
  }

  lemma OccursFits(chunk: Bytes, d: Bytes, i: nat)
    requires OccursAt(chunk, d, i)
    ensures i + |d| <= |chunk|
  {
  }

  /** The rescan of the last `|d| - 1` bytes gives the state of the whole stream. */
  lemma SuffixDecides(d: Bytes, s: Bytes, chunk: Bytes, offset: nat, start: nat, m: nat)
    requires d != [] && Longest(d, s, 0) && Absent(d, s) && offset <= |chunk| && IndexOf(chunk, d, offset) == -1
    requires start == Max(offset, |chunk| - |d| + 1) && start <= |chunk| && Longest(d, chunk[start..], m)
    requires m <= |chunk| - start
    ensures Longest(d, s + chunk[offset..], m) && Absent(d, s + chunk[offset..])
  {
    hide Fits, OccursAt, IndexOf;
    var all, before, tail := s + chunk[offset..], s + chunk[offset..start], chunk[start..];
    assert all == before + tail;
    FitsSuffix(d, before, tail, m);
    forall k | m < k < |d| ensures !Fits(d, all, k) {
      if k <= |tail| {
        FitsSuffix(d, before, tail, k);
      } else if Fits(d, all, k) {
        FitsInto(d, s, chunk[offset..], k);
      }
    }
    forall e | 0 <= e <= |all| ensures !Fits(d, all[..e], |d|) {
      if Fits(d, all[..e], |d|) { NoStraddle(d, s, chunk, offset, e); }
    }
  }

  lemma FitsNothing(d: Bytes, s: Bytes)
    requires |s| <= 1 && d != []
    ensures Fits(d, s, 0)
    ensures |s| == 1 && s[0] == d[0] ==> Border(d, 0, 0)
    ensures s == [] ==> Longest(d, s, 0) && Absent(d, s)
  {
  }

  lemma BorderMeans(d: Bytes, i: nat, m: nat)
    requires i < |d| && Border(d, i, m)
    ensures m <= i && Fits(d, d[..i + 1], m)
    ensures var s := d[..i + 1]; forall k :: m < k <= i ==> !Fits(d, s, k)
  {
  }

  lemma ExtendBorder(d: Bytes, i: nat, m: nat)
    requires 0 < i < |d| && m < i && Fits(d, d[..i], m) && (m > 0 ==> d[m] == d[i])
    requires forall k :: m < k < i && Fits(d, d[..i], k) ==> d[k] != d[i]
    ensures Border(d, i, if d[m] == d[i] then m + 1 else m)
  {
    var s, b := d[..i], d[i];
    var n := if d[m] == b then m + 1 else m;
    var t := s + [b];
    assert d[..i + 1] == t;
    if n > 0 { FitsSnoc(d, s, b, n); }
    forall k | n < k <= i ensures !Fits(d, t, k) { FitsSnoc(d, s, b, k); }
  }
}
