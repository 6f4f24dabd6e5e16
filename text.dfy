/** Decimal rendering of integers, as Python's f-strings render an int, with
    its inverse; and the splitting of a URL path into its '/'-separated
    segments, with its inverse. */
module Text {
  import opened Wrappers

  predicate IsDigit(c: char) {
    '0' <= c <= '9'
  }

  predicate AllDigits(s: string) {
    forall i :: 0 <= i < |s| ==> IsDigit(s[i])
  }

  function DigitChar(d: nat): (c: char)
    requires d < 10
    ensures IsDigit(c) && c as int - '0' as int == d
  {
    (d + '0' as int) as char
  }

  /** The decimal digits of n, most significant first, with no leading zero. */
  function NatToString(n: nat): (s: string)
    ensures |s| > 0 && AllDigits(s)
    ensures |s| > 1 ==> s[0] != '0'
    decreases n
  {
    if n < 10 then [DigitChar(n)] else NatToString(n / 10) + [DigitChar(n % 10)]
  }

  /** The value of a string of decimal digits. */
  function DigitsValue(s: string): nat
    requires AllDigits(s)
  {
    if s == [] then 0
    else DigitsValue(s[..|s| - 1]) * 10 + (s[|s| - 1] as int - '0' as int)
  }

  /** str(i) for a Python int: a minus sign before the digits of |i| when i < 0. */
  function IntToString(i: int): (s: string)
    ensures |s| > 0
    ensures forall k :: 0 <= k < |s| ==> s[k] != '/'
  {
    if i < 0 then "-" + NatToString(-i) else NatToString(i)
  }

  /** int(s) restricted to an optional minus sign followed by decimal digits. */
  function ParseInt(s: string): Option<int> {
    if |s| > 0 && AllDigits(s) then Some(DigitsValue(s))
    else if |s| > 1 && s[0] == '-' && AllDigits(s[1..]) then Some(-(DigitsValue(s[1..]) as int))
    else None
  }

  lemma {:induction false} DigitsValueOfNatToString(n: nat)
    ensures DigitsValue(NatToString(n)) == n
    decreases n
  {
    var s := NatToString(n);
    if n >= 10 {
      DigitsValueOfNatToString(n / 10);
      assert s[..|s| - 1] == NatToString(n / 10);
    }
  }

  /** Rendering an int and parsing it back gives the int: distinct ids render distinctly. */
  lemma ParseIntToString(i: int)
    ensures ParseInt(IntToString(i)) == Some(i)
  {
    if i < 0 {
      var s := IntToString(i);
      assert s[1..] == NatToString(-i);
      DigitsValueOfNatToString(-i);
    } else {
      DigitsValueOfNatToString(i);
    }
  }

  lemma ConcatAssoc<T>(a: seq<T>, b: seq<T>, c: seq<T>)
    ensures (a + b) + c == a + (b + c)
  {
  }

  predicate NoSlash(s: string) {
    forall k :: 0 <= k < |s| ==> s[k] != '/'
  }

  /** "/s0/s1/.../sn" for the segments s0 .. sn. */
  function JoinPath(segments: seq<string>): string {
    if segments == [] then "" else "/" + segments[0] + JoinPath(segments[1..])
  }

  /** The first index at or after i that holds '/', or |p| when there is none. */
  function SegmentEnd(p: string, i: nat): (k: nat)
    requires i <= |p|
    ensures i <= k <= |p| && (k < |p| ==> p[k] == '/')
    ensures NoSlash(p[i..k])
    decreases |p| - i
  {
    if i == |p| || p[i] == '/' then i else SegmentEnd(p, i + 1)
  }

  /** The '/'-separated segments of a path that is empty or starts with '/'. */
  function SplitPath(p: string): Option<seq<string>>
    decreases |p|
  {
    if p == [] then Some([])
    else if p[0] != '/' then None
    else
      var k := SegmentEnd(p, 1);
      match SplitPath(p[k..])
      case None => None
      case Some(rest) => Some([p[1..k]] + rest)
  }

  /** SegmentEnd finds the first '/' at or after i. */
  lemma {:induction false} SegmentEndIs(p: string, i: nat, m: nat)
    requires i <= m <= |p|
    requires NoSlash(p[i..m]) && (m == |p| || p[m] == '/')
    ensures SegmentEnd(p, i) == m
    decreases m - i
  {
    if i < m {
      assert p[i] == p[i..m][0];
      assert p[i + 1..m] == p[i..m][1..];
      SegmentEndIs(p, i + 1, m);
    }
  }

  /** Splitting a joined path gives back its segments, when none holds a '/'. */
  lemma {:induction false} SplitJoinPath(segments: seq<string>)
    requires forall i :: 0 <= i < |segments| ==> NoSlash(segments[i])
    ensures SplitPath(JoinPath(segments)) == Some(segments)
  {
    if segments != [] {
      var tail := JoinPath(segments[1..]);
      var p := JoinPath(segments);
      assert p == "/" + segments[0] + tail;
      var k := 1 + |segments[0]|;
      assert p[k..] == tail;
      assert p[1..k] == segments[0];
      assert tail != [] ==> tail[0] == '/';
      SegmentEndIs(p, 1, k);
      SplitJoinPath(segments[1..]);
      assert SplitPath(p) == Some([segments[0]] + segments[1..]);
      assert [segments[0]] + segments[1..] == segments;
    }
  }
}
