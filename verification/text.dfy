/**
 * String helpers with the semantics of the JavaScript operations the
 * services rely on: decimal formatting of integers inside template
 * literals, `String.prototype.split` with a one-character separator and
 * `Array.prototype.join`.
 */
module Text {

  predicate IsDigit(c: char) {
    '0' <= c <= '9'
  }

  function DigitChar(d: nat): (c: char)
    requires d < 10
    ensures IsDigit(c) && c as int - '0' as int == d
  {
    ('0' as int + d) as char
  }

  /** Decimal rendering of a natural number, as `${n}` produces it. */
  function NatToString(n: nat): (s: string)
    ensures |s| >= 1
    ensures forall i :: 0 <= i < |s| ==> IsDigit(s[i])
    decreases n
  {
    if n < 10 then [DigitChar(n)] else NatToString(n / 10) + [DigitChar(n % 10)]
  }

  /** Value of a string of decimal digits: the reference reading of `NatToString`. */
  function DigitsValue(s: string): nat
    requires forall i :: 0 <= i < |s| ==> IsDigit(s[i])
  {
    if |s| == 0 then 0
    else
      var last := s[|s| - 1];
      assert IsDigit(last);
      DigitsValue(s[..|s| - 1]) * 10 + (last as int - '0' as int)
  }

  /** Rendering a number and reading the digits back gives the number. */
  lemma {:induction false} NatToStringRoundTrip(n: nat)
    ensures DigitsValue(NatToString(n)) == n
    decreases n
  {
    if n >= 10 {
      var s := NatToString(n);
      assert s[..|s| - 1] == NatToString(n / 10);
      NatToStringRoundTrip(n / 10);
    }
  }

  /** Decimal rendering of an integer with a leading '-' when negative. */
  function IntToString(i: int): string {
    if i < 0 then "-" + NatToString(-i) else NatToString(i)
  }

  /** Index of the first occurrence of `c` in `s`. */
  function FirstIndex(s: string, c: char): (i: nat)
    requires c in s
    ensures i < |s| && s[i] == c && c !in s[..i]
  {
    if s[0] == c then 0 else 1 + FirstIndex(s[1..], c)
  }

  /**
   * `s.split(c)` for a one-character separator: the maximal separator-free
   * pieces, in order, with an empty piece around each leading, trailing or
   * doubled separator. Splitting never yields an empty array.
   */
  function Split(s: string, c: char): (parts: seq<string>)
    ensures |parts| >= 1
    ensures forall k :: 0 <= k < |parts| ==> c !in parts[k]
    decreases |s|
  {
    if c !in s then [s]
    else
      var i := FirstIndex(s, c);
      [s[..i]] + Split(s[i + 1..], c)
  }

  /** `parts.join(sep)`: the empty array joins to the empty string. */
  function Join(parts: seq<string>, sep: string): string {
    if |parts| == 0 then ""
    else if |parts| == 1 then parts[0]
    else parts[0] + sep + Join(parts[1..], sep)
  }

  /** Joining the pieces of a split with the separator rebuilds the string. */
  lemma {:induction false} SplitJoin(s: string, c: char)
    ensures Join(Split(s, c), [c]) == s
    decreases |s|
  {
    if c in s {
      var i := FirstIndex(s, c);
      var tail := s[i + 1..];
      var rest := Split(tail, c);
      SplitJoin(tail, c);
      var parts := Split(s, c);
      assert parts == [s[..i]] + rest;
      assert |parts| >= 2 && parts[0] == s[..i] && parts[1..] == rest;
      assert Join(parts, [c]) == s[..i] + [c] + Join(rest, [c]);
      assert s == s[..i] + [c] + tail;
    }
  }

  /**
   * `v` sits in `s` from index `start` up to the next `c` or the end of
   * `s`: the piece of a split that begins at `start`.
   */
  predicate PieceAt(s: string, start: nat, c: char, v: string) {
    && start + |v| <= |s|
    && s[start..start + |v|] == v
    && (start + |v| == |s| || s[start + |v|] == c)
  }

  /** `s.split(c)[0]` is the text before the first `c`, or all of `s`. */
  lemma FirstPiece(s: string, c: char)
    ensures PieceAt(s, 0, c, Split(s, c)[0])
  {
    if c in s {
      var i := FirstIndex(s, c);
      assert Split(s, c)[0] == s[..i];
    }
  }

  /** A piece found in a suffix of `s` sits at the suffix's offset in `s`. */
  lemma PieceAtShift(s: string, k: nat, c: char, v: string)
    requires k <= |s| && PieceAt(s[k..], 0, c, v)
    ensures PieceAt(s, k, c, v)
  {
    assert s[k..][0..|v|] == s[k..k + |v|];
    if k + |v| < |s| {
      assert s[k..][|v|] == s[k + |v|];
    }
  }

  /** `s.split(c)[1]` is the text after the first `c` up to the next `c` or the end. */
  lemma SecondPiece(s: string, c: char)
    requires c in s
    ensures |Split(s, c)| >= 2
    ensures PieceAt(s, FirstIndex(s, c) + 1, c, Split(s, c)[1])
  {
    var i := FirstIndex(s, c);
    var rest := s[i + 1..];
    assert Split(s, c) == [s[..i]] + Split(rest, c);
    assert Split(s, c)[1] == Split(rest, c)[0];
    FirstPiece(rest, c);
    PieceAtShift(s, i + 1, c, Split(rest, c)[0]);
  }

  /** Splitting a join of separator-free pieces gives the pieces back. */
  lemma {:induction false} JoinSplit(parts: seq<string>, c: char)
    requires |parts| >= 1
    requires forall k :: 0 <= k < |parts| ==> c !in parts[k]
    ensures Split(Join(parts, [c]), c) == parts
    decreases |parts|
  {
    if |parts| > 1 {
      var s := Join(parts, [c]);
      var tail := Join(parts[1..], [c]);
      assert s == parts[0] + [c] + tail;
      assert s[|parts[0]|] == c;
      assert s[..|parts[0]|] == parts[0];
      var i := FirstIndex(s, c);
      assert c !in s[..|parts[0]|];
      assert i == |parts[0]|;
      assert s[i + 1..] == tail;
      JoinSplit(parts[1..], c);
    }
  }
}
