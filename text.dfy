/** The handful of Python `str` operations the downloader relies on. */
module Text {

  predicate StartsWith(s: string, prefix: string) {
    |prefix| <= |s| && s[..|prefix|] == prefix
  }

  predicate EndsWith(s: string, suffix: string) {
    |suffix| <= |s| && s[|s| - |suffix|..] == suffix
  }

  /** `s.rfind(c)`: the index of the last `c`, or -1. */
  function LastIndex(s: string, c: char): (r: int)
    ensures -1 <= r < |s|
    ensures r >= 0 ==> s[r] == c
    ensures forall k :: r < k < |s| ==> s[k] != c
  {
    if |s| == 0 then -1
    else if s[|s| - 1] == c then |s| - 1
    else LastIndex(s[..|s| - 1], c)
  }

  /** `s.find(c)`: the index of the first `c`, or -1. */
  function FirstIndex(s: string, c: char): (r: int)
    ensures -1 <= r < |s|
    ensures r >= 0 ==> s[r] == c
    ensures forall k :: 0 <= k < |s| && (r < 0 || k < r) ==> s[k] != c
  {
    if |s| == 0 then -1
    else if s[0] == c then 0
    else var k := FirstIndex(s[1..], c); if k < 0 then -1 else k + 1
  }

  /** `s.split(c)`: never empty; the empty string splits into `[""]`. */
  function Split(s: string, c: char): (r: seq<string>)
    ensures |r| >= 1
    ensures forall k :: 0 <= k < |r| ==> c !in r[k]
    decreases |s|
  {
    var i := FirstIndex(s, c);
    if i < 0 then [s]
    else
      var head, tail := s[..i], Split(s[i + 1..], c);
      assert c !in head by {
        forall k | 0 <= k < |head| ensures head[k] != c { assert head[k] == s[k]; }
      }
      [head] + tail
  }

  /** `sep.join(parts)`. */
  function Join(sep: string, parts: seq<string>): string
  {
    if |parts| == 0 then ""
    else if |parts| == 1 then parts[0]
    else parts[0] + sep + Join(sep, parts[1..])
  }

  /** `s.split(c)[-1]`: what follows the last `c`. */
  function AfterLast(s: string, c: char): (r: string)
    ensures c !in r
    ensures EndsWith(s, r)
  {
    s[LastIndex(s, c) + 1..]
  }

  /** `s.split(c)[0]`: what precedes the first `c`. */
  function BeforeFirst(s: string, c: char): (r: string)
    ensures c !in r
    ensures StartsWith(s, r)
  {
    var i := FirstIndex(s, c);
    if i < 0 then s else s[..i]
  }

  /** `s.replace(a, b)` for one-character `a` and `b`. */
  function ReplaceChar(s: string, a: char, b: char): (r: string)
    ensures |r| == |s|
    ensures a != b ==> a !in r
  {
    if |s| == 0 then ""
    else [if s[0] == a then b else s[0]] + ReplaceChar(s[1..], a, b)
  }

  /** `str(n)` for a non-negative integer. */
  function NatToDecimal(n: nat): (r: string)
    ensures |r| >= 1
    ensures forall k :: 0 <= k < |r| ==> '0' <= r[k] <= '9'
  {
    if n < 10 then [DigitChar(n)] else NatToDecimal(n / 10) + [DigitChar(n % 10)]
  }

  function DigitChar(d: nat): (c: char)
    requires d < 10
    ensures '0' <= c <= '9'
  {
    (48 + d) as char
  }

  /** `str(i)` for any integer: a minus sign, then the digits. */
  function IntToDecimal(i: int): string
  {
    if i < 0 then "-" + NatToDecimal(-i) else NatToDecimal(i)
  }

  /** The number a string of decimal digits denotes (the partner of NatToDecimal). */
  function DecimalValue(s: string): nat
  {
    if |s| == 0 then 0
    else
      var d := s[|s| - 1] as int - 48;
      DecimalValue(s[..|s| - 1]) * 10 + (if 0 <= d < 10 then d else 0)
  }

  /** Reading the digits back gives the number: `int(str(n)) == n`. */
  lemma {:induction false} DecimalRoundTrip(n: nat)
    ensures DecimalValue(NatToDecimal(n)) == n
  {
    if n >= 10 {
      DecimalRoundTrip(n / 10);
      var s := NatToDecimal(n / 10) + [DigitChar(n % 10)];
      assert s[..|s| - 1] == NatToDecimal(n / 10);
    }
  }

  /** Splitting a join on a separator that no part contains gives the parts back,
      empty parts included. */
  lemma {:induction false} SplitJoin(parts: seq<string>, c: char)
    requires |parts| >= 1
    requires forall k :: 0 <= k < |parts| ==> c !in parts[k]
    ensures Split(Join([c], parts), c) == parts
  {
    if |parts| == 1 {
      assert FirstIndex(parts[0], c) < 0;
    } else {
      var rest := Join([c], parts[1..]);
      var s := parts[0] + [c] + rest;
      assert s == Join([c], parts);
      assert FirstIndex(s, c) == |parts[0]| by {
        FirstIndexAfterClean(parts[0], c, [c] + rest);
        assert s == parts[0] + ([c] + rest);
      }
      assert s[..|parts[0]|] == parts[0];
      assert s[|parts[0]| + 1..] == rest;
      SplitJoin(parts[1..], c);
    }
  }

  /** The first `c` of `p + q` lies in `q` when `p` has none. */
  lemma {:induction false} FirstIndexAfterClean(p: string, c: char, q: string)
    requires c !in p
    requires |q| > 0 && q[0] == c
    ensures FirstIndex(p + q, c) == |p|
  {
    if |p| > 0 {
      assert (p + q)[1..] == p[1..] + q;
      FirstIndexAfterClean(p[1..], c, q);
    }
  }

  /** The last `c` of `p + [c] + q` is the one before `q` when `q` has none. */
  lemma {:induction false} LastIndexBeforeClean(p: string, c: char, q: string)
    requires c !in q
    ensures LastIndex(p + [c] + q, c) == |p|
  {
    if |q| > 0 {
      var q0 := q[..|q| - 1];
      assert c !in q0 by {
        forall k | 0 <= k < |q0| ensures q0[k] != c { assert q0[k] == q[k]; }
      }
      assert (p + [c] + q)[..|p| + |q|] == p + [c] + q0;
      LastIndexBeforeClean(p, c, q0);
    }
  }

  /** Replacing a character that does not occur changes nothing. */
  lemma {:induction false} ReplaceCharAbsent(s: string, a: char, b: char)
    requires a !in s
    ensures ReplaceChar(s, a, b) == s
  {
    if |s| > 0 {
      assert a !in s[1..];
      ReplaceCharAbsent(s[1..], a, b);
    }
  }
}
