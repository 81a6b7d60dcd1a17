/** ASCII character classes, case mapping, joining, splitting and searching of strings.
    These are the JavaScript string primitives the source relies on (`toLowerCase`,
    `join`, `split`, `indexOf`), restricted to what the modelled code needs. */
module Strings {
  import opened Wrappers

  predicate IsDigit(c: char) { '0' <= c <= '9' }
  predicate IsUpper(c: char) { 'A' <= c <= 'Z' }
  predicate IsLower(c: char) { 'a' <= c <= 'z' }
  predicate IsLetterOrDigit(c: char) { IsDigit(c) || IsUpper(c) || IsLower(c) }

  /** `toLowerCase` on one character; only ASCII letters change. */
  function ToLower(c: char): (r: char)
    ensures IsUpper(c) ==> IsLower(r) && r as int == c as int + 32
    ensures !IsUpper(c) ==> r == c
  {
    if IsUpper(c) then (c as int + 32) as char else c
  }

  /** `toUpperCase` on one character; only ASCII letters change. */
  function ToUpper(c: char): (r: char)
    ensures IsLower(c) ==> IsUpper(r) && r as int == c as int - 32
    ensures !IsLower(c) ==> r == c
  {
    if IsLower(c) then (c as int - 32) as char else c
  }

  lemma UpperOfLower(c: char)
    ensures ToUpper(ToLower(c)) == ToUpper(c)
  {
  }

  /** `String.prototype.toLowerCase` (ASCII letters only). */
  function Lower(s: string): (r: string)
    ensures |r| == |s|
    ensures forall i :: 0 <= i < |s| ==> r[i] == ToLower(s[i])
  {
    seq(|s|, i requires 0 <= i < |s| => ToLower(s[i]))
  }

  /** `String.prototype.toUpperCase` (ASCII letters only). */
  function Upper(s: string): (r: string)
    ensures |r| == |s|
    ensures forall i :: 0 <= i < |s| ==> r[i] == ToUpper(s[i])
  {
    seq(|s|, i requires 0 <= i < |s| => ToUpper(s[i]))
  }

  /** `Array.prototype.join(sep)`. */
  function Join(parts: seq<string>, sep: string): string
  {
    if |parts| == 0 then ""
    else if |parts| == 1 then parts[0]
    else parts[0] + sep + Join(parts[1..], sep)
  }

  lemma AppendAssoc<T>(x: seq<T>, y: seq<T>, z: seq<T>)
    ensures x + (y + z) == (x + y) + z
  {
  }

  lemma SliceAround<T>(s: seq<T>, k: nat)
    requires k < |s|
    ensures s[..k] + [s[k]] + s[k + 1..] == s
  {
    assert s == s[..k] + s[k..] && s[k..] == [s[k]] + s[k + 1..];
  }

  lemma JoinAppend(parts: seq<string>, last: string, sep: string)
    requires parts != []
    ensures Join(parts + [last], sep) == Join(parts, sep) + sep + last
  {
    if |parts| == 1 {
    } else {
      assert (parts + [last])[1..] == parts[1..] + [last];
      JoinAppend(parts[1..], last, sep);
    }
  }

  /** `String.prototype.split(sep)` for a separator that is one character out of `seps`:
      every occurrence splits, so there is always at least one piece. */
  function Split(s: string, seps: set<char>): (r: seq<string>)
    ensures |r| >= 1
    ensures |r| == 1 <==> forall i :: 0 <= i < |s| ==> s[i] !in seps
    ensures forall k, i :: 0 <= k < |r| && 0 <= i < |r[k]| ==> r[k][i] !in seps
  {
    if s == [] then [[]]
    else if s[0] in seps then
      var rest := Split(s[1..], seps);
      [[]] + rest
    else
      var rest := Split(s[1..], seps);
      assert forall i :: 1 <= i < |s| ==> s[i] == s[1..][i - 1];
      [[s[0]] + rest[0]] + rest[1..]
  }

  lemma {:induction false} SplitNoSeparator(w: string, seps: set<char>)
    requires forall i :: 0 <= i < |w| ==> w[i] !in seps
    ensures Split(w, seps) == [w]
  {
    if w != [] {
      SplitNoSeparator(w[1..], seps);
      assert [w[0]] + w[1..] == w;
    }
  }

  lemma {:induction false} SplitAfterWord(w: string, c: char, rest: string)
    requires c !in w
    ensures Split(w + [c] + rest, {c}) == [w] + Split(rest, {c})
  {
    if w == [] {
      assert w + [c] + rest == [c] + rest;
      assert ([c] + rest)[1..] == rest;
    } else {
      var s := w + [c] + rest;
      assert s[0] == w[0];
      assert s[1..] == w[1..] + [c] + rest;
      SplitAfterWord(w[1..], c, rest);
      assert [w[0]] + w[1..] == w;
    }
  }

  /** Joining pieces that do not contain the separator character and splitting again gives
      the pieces back. */
  lemma {:induction false} SplitJoin(parts: seq<string>, c: char)
    requires parts != []
    requires forall k :: 0 <= k < |parts| ==> c !in parts[k]
    ensures Split(Join(parts, [c]), {c}) == parts
  {
    if |parts| == 1 {
      SplitNoSeparator(parts[0], {c});
    } else {
      SplitJoin(parts[1..], c);
      assert Join(parts, [c]) == parts[0] + [c] + Join(parts[1..], [c]);
      SplitAfterWord(parts[0], c, Join(parts[1..], [c]));
      assert [parts[0]] + parts[1..] == parts;
    }
  }

  /** `String.prototype.indexOf` for one character: the first position of `c`, if any. */
  function IndexOf(s: string, c: char): (r: Option<nat>)
    ensures r.None? <==> c !in s
    ensures r.Some? ==> r.value < |s| && s[r.value] == c && c !in s[..r.value]
  {
    if s == [] then None
    else if s[0] == c then Some(0)
    else
      var rest := IndexOf(s[1..], c);
      if rest.None? then None
      else
        assert s[..rest.value + 1] == [s[0]] + s[1..][..rest.value];
        Some(rest.value + 1)
  }

  /** Whether `s` starts with `prefix` (`String.prototype.startsWith`). */
  predicate StartsWith(s: string, prefix: string) {
    |prefix| <= |s| && s[..|prefix|] == prefix
  }

  /** Whether `s` ends with `suffix` (`String.prototype.endsWith`). */
  predicate EndsWith(s: string, suffix: string) {
    |suffix| <= |s| && s[|s| - |suffix|..] == suffix
  }

  lemma ConcatStartsEnds(a: string, b: string)
    ensures StartsWith(a + b, a) && EndsWith(a + b, b)
  {
    assert (a + b)[..|a|] == a;
    assert (a + b)[|a + b| - |b|..] == b;
  }

  lemma StartsWithTrans(x: string, a: string, b: string)
    requires StartsWith(x, a) && StartsWith(a, b)
    ensures StartsWith(x, b)
  {
    assert x[..|b|] == x[..|a|][..|b|];
  }

  /** Two prefixes that differ at position `k` cannot both start the same text. */
  lemma PrefixClash(x: string, p: string, q: string, k: nat)
    requires StartsWith(x, p) && k < |p| && k < |q| && p[k] != q[k]
    ensures !StartsWith(x, q)
  {
    assert x[k] == x[..|p|][k] == p[k];
  }

  /** `a + b + c` starts with `a` and with `a + b`. */
  lemma StartsWithPieces(a: string, b: string, c: string)
    ensures StartsWith(a + b + c, a + b) && StartsWith(a + b + c, a)
  {
    ConcatStartsEnds(a + b, c);
    ConcatStartsEnds(a, b);
    StartsWithTrans(a + b + c, a + b, a);
  }

  /** A suffix survives text added in front, and grows with text added behind. */
  lemma EndsWithConcat(p: string, s: string, suffix: string, c: string)
    requires EndsWith(s, suffix)
    ensures EndsWith(p + s + c, suffix + c)
  {
    var t := p + s + c;
    assert t[|t| - |suffix + c|..] == s[|s| - |suffix|..] + c;
  }

  /** The decimal digit of a value below ten. */
  function DigitChar(d: nat): (r: char)
    requires d < 10
    ensures IsDigit(r) && r as int - '0' as int == d
  {
    ('0' as int + d) as char
  }

  /** `String(n)` for a non-negative integer: its decimal digits, without leading
      zeros. */
  function NatToString(n: nat): (r: string)
    ensures r != [] && forall i :: 0 <= i < |r| ==> IsDigit(r[i])
    ensures |r| > 1 ==> r[0] != '0'
  {
    if n < 10 then [DigitChar(n)]
    else NatToString(n / 10) + [DigitChar(n % 10)]
  }

  /** `String(n)` for an integer: a minus sign before the digits of a negative one. */
  function IntToString(n: int): (r: string)
    ensures r != []
    ensures r[0] == '-' <==> n < 0
  {
    if n < 0 then "-" + NatToString(-n) else NatToString(n)
  }

  /** The value of a string of decimal digits. */
  function DigitsValue(s: string): nat
    requires forall i :: 0 <= i < |s| ==> IsDigit(s[i])
  {
    if s == [] then 0
    else
      assert IsDigit(s[|s| - 1]);
      DigitsValue(s[..|s| - 1]) * 10 + (s[|s| - 1] as int - '0' as int)
  }

  /** The digits of a number read back as that number. */
  lemma {:induction false} NatToStringValue(n: nat)
    ensures DigitsValue(NatToString(n)) == n
  {
    var r := NatToString(n);
    if n >= 10 {
      NatToStringValue(n / 10);
      assert r[..|r| - 1] == NatToString(n / 10);
    } else {
      assert r[..|r| - 1] == [];
    }
  }

  /** Distinct integers print differently. */
  lemma IntToStringInjective(a: int, b: int)
    ensures IntToString(a) == IntToString(b) <==> a == b
  {
    if IntToString(a) == IntToString(b) {
      if a < 0 {
        assert IntToString(a)[1..] == NatToString(-a) && IntToString(b)[1..] == NatToString(-b);
        NatToStringValue(-a);
        NatToStringValue(-b);
      } else {
        NatToStringValue(a);
        NatToStringValue(b);
      }
    }
  }
}
