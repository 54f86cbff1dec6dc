/**
 * The JavaScript string built-ins the client relies on, written out over
 * `seq<char>`: trimming, prefix/suffix/substring tests, splitting on one
 * character, ASCII case mapping, decimal printing and `parseInt`.
 */
module Strings {
  import opened Wrappers

  /** The code points ECMAScript counts as WhiteSpace or LineTerminator:
      the characters `trim` strips and `parseInt` skips. */
  predicate IsJsSpace(c: char) {
    || c == '\t' || c == '\n' || c == '\U{000B}' || c == '\U{000C}' || c == '\r' || c == ' '
    || c == '\U{00A0}' || c == '\U{1680}' || ('\U{2000}' <= c <= '\U{200A}')
    || c == '\U{2028}' || c == '\U{2029}' || c == '\U{202F}' || c == '\U{205F}'
    || c == '\U{3000}' || c == '\U{FEFF}'
  }

  /** Every character is white space (the empty string included). */
  predicate IsBlank(s: string) {
    forall i :: 0 <= i < |s| ==> IsJsSpace(s[i])
  }

  /** `s.trimStart()`: drops the leading white space. */
  function TrimStart(s: string): (r: string)
    ensures |r| <= |s| && r == s[|s| - |r|..]
    ensures r == [] || !IsJsSpace(r[0])
    ensures IsBlank(s[..|s| - |r|])
  {
    if s != [] && IsJsSpace(s[0]) then TrimStart(s[1..]) else s
  }

  /** `s.trimEnd()`: drops the trailing white space. */
  function TrimEnd(s: string): (r: string)
    ensures |r| <= |s| && r == s[..|r|]
    ensures r == [] || !IsJsSpace(r[|r| - 1])
    ensures IsBlank(s[|r|..])
  {
    if s != [] && IsJsSpace(s[|s| - 1]) then TrimEnd(s[..|s| - 1]) else s
  }

  /** `s.trim()`. */
  function Trim(s: string): string {
    TrimEnd(TrimStart(s))
  }

  /** A string that neither starts nor ends with white space is its own `trim()`. */
  lemma TrimUnchanged(s: string)
    requires s != [] && !IsJsSpace(s[0]) && !IsJsSpace(s[|s| - 1])
    ensures Trim(s) == s
  {
    assert TrimStart(s) == s;
  }

  /** `s.trim()` is empty exactly when `s` holds nothing but white space. */
  lemma TrimEmptyIffBlank(s: string)
    ensures Trim(s) == [] <==> IsBlank(s)
  {
    var a := TrimStart(s);
    if Trim(s) == [] {
      assert a[0..] == a;
      assert s == s[..|s| - |a|] + a;
    }
  }

  /** `s.startsWith(p)`. */
  predicate StartsWith(s: string, p: string) {
    |p| <= |s| && s[..|p|] == p
  }

  /** `s.endsWith(p)`. */
  predicate EndsWith(s: string, p: string) {
    |p| <= |s| && s[|s| - |p|..] == p
  }

  /** `s.includes(sub)`. */
  predicate Contains(s: string, sub: string) {
    StartsWith(s, sub) || (s != [] && Contains(s[1..], sub))
  }

  /** `sub` occurs in `s` starting at position `i`. */
  predicate OccursAt(s: string, sub: string, i: int) {
    0 <= i <= |s| - |sub| && s[i..i + |sub|] == sub
  }

  /** `includes` holds exactly when `sub` occurs at some position of `s`. */
  lemma {:induction false} ContainsIffOccurs(s: string, sub: string)
    ensures Contains(s, sub) <==> exists i :: OccursAt(s, sub, i)
  {
    if StartsWith(s, sub) {
      assert OccursAt(s, sub, 0);
    } else if s != [] {
      ContainsIffOccurs(s[1..], sub);
      if Contains(s[1..], sub) {
        var i :| OccursAt(s[1..], sub, i);
        assert s[i + 1..i + 1 + |sub|] == s[1..][i..i + |sub|];
        assert OccursAt(s, sub, i + 1);
      }
      if exists i :: OccursAt(s, sub, i) {
        var i :| OccursAt(s, sub, i);
        assert i != 0;
        assert s[1..][i - 1..i - 1 + |sub|] == s[i..i + |sub|];
        assert OccursAt(s[1..], sub, i - 1);
      }
    }
  }

  /** Every string includes itself. */
  lemma ContainsSelf(s: string)
    ensures Contains(s, s)
  {
  }

  /** `s.split(sep)` for a one-character separator: always at least one
      piece, empty pieces kept. */
  function Split(s: string, sep: char): (r: seq<string>)
    ensures |r| >= 1
  {
    SplitFrom([], s, sep)
  }

  /** Splitting `s` when the piece in progress already holds `cur`. */
  function SplitFrom(cur: string, s: string, sep: char): (r: seq<string>)
    ensures |r| >= 1
    decreases |s|
  {
    if s == [] then [cur]
    else if s[0] == sep then [cur] + SplitFrom([], s[1..], sep)
    else SplitFrom(cur + [s[0]], s[1..], sep)
  }

  /** `parts.join(sep)`. */
  function Join(parts: seq<string>, sep: char): string
    requires |parts| >= 1
  {
    if |parts| == 1 then parts[0] else parts[0] + [sep] + Join(parts[1..], sep)
  }

  function AllButLast(parts: seq<string>): seq<string>
    requires |parts| >= 1
  {
    parts[..|parts| - 1]
  }

  function Last(parts: seq<string>): string
    requires |parts| >= 1
  {
    parts[|parts| - 1]
  }

  /** Splitting loses nothing and keeps the separator out of every piece. */
  lemma SplitJoin(s: string, sep: char)
    ensures Join(Split(s, sep), sep) == s
    ensures forall k :: 0 <= k < |Split(s, sep)| ==> sep !in Split(s, sep)[k]
  {
    SplitFromJoin([], s, sep);
  }

  lemma {:induction false} SplitFromJoin(cur: string, s: string, sep: char)
    requires sep !in cur
    decreases |s|
    ensures Join(SplitFrom(cur, s, sep), sep) == cur + s
    ensures forall k :: 0 <= k < |SplitFrom(cur, s, sep)| ==> sep !in SplitFrom(cur, s, sep)[k]
  {
    if s == [] {
    } else if s[0] == sep {
      SplitFromJoin([], s[1..], sep);
      assert cur + s == cur + [sep] + s[1..];
    } else {
      SplitFromJoin(cur + [s[0]], s[1..], sep);
      assert cur + s == cur + [s[0]] + s[1..];
    }
  }

  /** Splitting `t + u` is splitting `t`, except that its last, unfinished
      piece is continued by `u`. This is what lets a line reader hold back
      the text after the last separator and carry on with the next read. */
  lemma SplitAppend(t: string, u: string, sep: char)
    ensures Split(t + u, sep) == AllButLast(Split(t, sep)) + Split(Last(Split(t, sep)) + u, sep)
  {
    SplitFromAppend([], t, u, sep);
    SplitJoin(t, sep);
    var last := Last(Split(t, sep));
    SplitFromShift([], last, u, sep);
    assert [] + last == last;
  }

  lemma {:induction false} SplitFromAppend(cur: string, t: string, u: string, sep: char)
    decreases |t|
    ensures SplitFrom(cur, t + u, sep)
         == AllButLast(SplitFrom(cur, t, sep)) + SplitFrom(Last(SplitFrom(cur, t, sep)), u, sep)
  {
    if t == [] {
      assert t + u == u;
    } else {
      assert (t + u)[0] == t[0] && (t + u)[1..] == t[1..] + u;
      if t[0] == sep {
        SplitFromAppend([], t[1..], u, sep);
      } else {
        SplitFromAppend(cur + [t[0]], t[1..], u, sep);
      }
    }
  }

  /** Moving separator-free characters from the input onto the piece in progress. */
  lemma {:induction false} SplitFromShift(pre: string, mid: string, s: string, sep: char)
    requires sep !in mid
    decreases |mid|
    ensures SplitFrom(pre, mid + s, sep) == SplitFrom(pre + mid, s, sep)
  {
    if mid != [] {
      assert (mid + s)[0] == mid[0] && (mid + s)[1..] == mid[1..] + s;
      assert pre + [mid[0]] + mid[1..] == pre + mid;
      SplitFromShift(pre + [mid[0]], mid[1..], s, sep);
    } else {
      assert mid + s == s && pre + mid == pre;
    }
  }

  /** A line without the separator, then the separator: one piece, then an empty one. */
  lemma SplitLine(l: string, sep: char)
    requires sep !in l
    ensures Split(l + [sep], sep) == [l, []]
  {
    SplitFromShift([], l, [sep], sep);
    assert [] + l == l;
    assert SplitFrom(l, [sep], sep) == [l] + SplitFrom([], [], sep);
  }

  /** A split yields at least two pieces exactly when the separator occurs. */
  lemma SplitSeveralIff(s: string, sep: char)
    ensures |Split(s, sep)| >= 2 <==> sep in s
  {
    if sep in s {
      SplitFromSeveral([], s, sep);
    } else {
      SplitFromShift([], s, [], sep);
      assert s + [] == s && [] + s == s;
    }
  }

  lemma {:induction false} SplitFromSeveral(cur: string, s: string, sep: char)
    requires sep in s
    decreases |s|
    ensures |SplitFrom(cur, s, sep)| >= 2
  {
    if s[0] != sep {
      assert sep in s[1..];
      SplitFromSeveral(cur + [s[0]], s[1..], sep);
    }
  }

  /** The text before the first `sep`, or all of `s` when there is none. */
  function UpTo(s: string, sep: char): (r: string)
    ensures |r| <= |s| && r == s[..|r|] && sep !in r
    ensures |r| < |s| ==> s[|r|] == sep
  {
    if s == [] || s[0] == sep then [] else [s[0]] + UpTo(s[1..], sep)
  }

  /** The first piece of a split is the text before the first separator. */
  lemma SplitFirst(s: string, sep: char)
    ensures Split(s, sep)[0] == UpTo(s, sep)
  {
    SplitFromFirst([], s, sep);
  }

  lemma {:induction false} SplitFromFirst(cur: string, s: string, sep: char)
    decreases |s|
    ensures SplitFrom(cur, s, sep)[0] == cur + UpTo(s, sep)
  {
    if s != [] && s[0] != sep {
      SplitFromFirst(cur + [s[0]], s[1..], sep);
    }
  }

  /** Whatever follows a separator is cut off. */
  lemma {:induction false} UpToAppend(p: string, q: string, sep: char)
    requires sep !in p
    ensures UpTo(p + [sep] + q, sep) == p
  {
    if p != [] {
      assert (p + [sep] + q)[1..] == p[1..] + [sep] + q;
      UpToAppend(p[1..], q, sep);
    }
  }

  /** ASCII `toLowerCase` (the texts compared in the model are ASCII or CJK,
      which the full Unicode mapping leaves unchanged). */
  function LowerAscii(s: string): (r: string)
    ensures |r| == |s|
  {
    seq(|s|, i requires 0 <= i < |s| => if 'A' <= s[i] <= 'Z' then (s[i] as int + 32) as char else s[i])
  }

  /** ASCII `toUpperCase`. */
  function UpperAscii(s: string): (r: string)
    ensures |r| == |s|
  {
    seq(|s|, i requires 0 <= i < |s| => if 'a' <= s[i] <= 'z' then (s[i] as int - 32) as char else s[i])
  }

  predicate IsDecimalDigit(c: char) {
    '0' <= c <= '9'
  }

  /** The value of `c` as a digit in base `radix` (10 or 16), if it is one. */
  function DigitValue(c: char, radix: nat): Option<nat> {
    if '0' <= c <= '9' && (c as int - '0' as int) < radix then Some(c as int - '0' as int)
    else if radix == 16 && 'a' <= c <= 'f' then Some(c as int - 'a' as int + 10)
    else if radix == 16 && 'A' <= c <= 'F' then Some(c as int - 'A' as int + 10)
    else None
  }

  /** The longest prefix of `s` made of digits of base `radix`. */
  function DigitRun(s: string, radix: nat): (r: string)
    ensures |r| <= |s| && r == s[..|r|]
    ensures forall i :: 0 <= i < |r| ==> DigitValue(r[i], radix).Some?
  {
    if s != [] && DigitValue(s[0], radix).Some? then [s[0]] + DigitRun(s[1..], radix) else []
  }

  /** The number a run of digits denotes, most significant digit first. */
  function DigitsValue(ds: string, radix: nat): nat
    requires forall i :: 0 <= i < |ds| ==> DigitValue(ds[i], radix).Some?
  {
    if ds == [] then 0
    else DigitsValue(ds[..|ds| - 1], radix) * radix + DigitValue(ds[|ds| - 1], radix).value
  }

  /** JavaScript's `parseInt(s)` without a radix, on integers: leading white
      space is skipped, one sign is read, a `0x`/`0X` prefix selects base 16,
      then the longest run of digits is read; no digit at all gives NaN,
      written `None`. */
  function ParseInt(s: string): Option<int> {
    var t := TrimStart(s);
    var neg := t != [] && t[0] == '-';
    var body := if t != [] && (t[0] == '-' || t[0] == '+') then t[1..] else t;
    var hex := |body| >= 2 && body[0] == '0' && (body[1] == 'x' || body[1] == 'X');
    var radix := if hex then 16 else 10;
    var digits := DigitRun(if hex then body[2..] else body, radix);
    if digits == [] then None
    else
      var v: int := DigitsValue(digits, radix);
      Some(if neg then -v else v)
  }

  /** `String(n)` for a natural number: its decimal digits. */
  function NatToString(n: nat): (r: string)
    ensures |r| >= 1
    ensures forall i :: 0 <= i < |r| ==> IsDecimalDigit(r[i])
    ensures r[0] == '0' ==> n == 0
  {
    if n < 10 then [('0' as int + n) as char]
    else NatToString(n / 10) + [('0' as int + n % 10) as char]
  }

  /** `parseInt(String(n)) == n`: printing a natural number and reading it
      back is the identity. */
  lemma {:induction false} ParseIntNatToString(n: nat)
    ensures ParseInt(NatToString(n)) == Some(n)
  {
    var s := NatToString(n);
    DecimalRunIsWhole(s);
    assert TrimStart(s) == s by {
      assert !IsJsSpace(s[0]);
    }
    DigitsValueOfNat(n);
  }

  /** A run of decimal digits is read whole. */
  lemma {:induction false} DecimalRunIsWhole(s: string)
    requires forall i :: 0 <= i < |s| ==> IsDecimalDigit(s[i])
    ensures DigitRun(s, 10) == s
  {
    if s != [] {
      DecimalRunIsWhole(s[1..]);
    }
  }

  lemma {:induction false} DigitsValueOfNat(n: nat)
    ensures forall i :: 0 <= i < |NatToString(n)| ==> DigitValue(NatToString(n)[i], 10).Some?
    ensures DigitsValue(NatToString(n), 10) == n
  {
    if n >= 10 {
      DigitsValueOfNat(n / 10);
      var s := NatToString(n);
      assert s[..|s| - 1] == NatToString(n / 10);
    }
  }

  /** `String(i)` for an integer: a minus sign for negatives, then the digits. */
  function IntToString(i: int): (r: string)
    ensures i >= 0 ==> r == NatToString(i)
    ensures i < 0 ==> r == "-" + NatToString(-i)
  {
    if i < 0 then "-" + NatToString(-i) else NatToString(i)
  }

  /** `parseInt(String(i)) == i` for every integer. */
  lemma ParseIntIntToString(i: int)
    ensures ParseInt(IntToString(i)) == Some(i)
  {
    if i >= 0 {
      ParseIntNatToString(i);
    } else {
      var d := NatToString(-i);
      var s := "-" + d;
      assert s[0] == '-' && TrimStart(s) == s;
      assert s[1..] == d;
      assert d[0] != '0';
      DecimalRunIsWhole(d);
      DigitsValueOfNat(-i);
    }
  }
}
