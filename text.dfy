/** String helpers shared by the backend and frontend models: prefix and substring
    tests, ASCII lower-casing, decimal rendering of counters, and splitting and
    joining on a separator. */
module Text {

  /** `s.startswith(p)` / `s.startsWith(p)`. */
  predicate StartsWith(s: string, p: string) {
    |p| <= |s| && s[..|p|] == p
  }

  /** `s.endsWith(p)`. */
  predicate EndsWith(s: string, p: string) {
    |p| <= |s| && s[|s| - |p|..] == p
  }

  /** `sub` occurs in `s` at position `i`. */
  ghost predicate OccursAt(s: string, sub: string, i: int) {
    0 <= i && i + |sub| <= |s| && s[i..i + |sub|] == sub
  }

  /** Python's `sub in s`, JavaScript's `s.includes(sub)`. */
  function Contains(s: string, sub: string): (r: bool)
    ensures r <==> exists i :: OccursAt(s, sub, i)
    decreases |s|
  {
    if StartsWith(s, sub) then
      assert OccursAt(s, sub, 0);
      true
    else if |s| == 0 then
      assert forall i :: !OccursAt(s, sub, i);
      false
    else
      var r := Contains(s[1..], sub);
      assert forall i :: OccursAt(s[1..], sub, i) <==> OccursAt(s, sub, i + 1);
      assert forall i :: OccursAt(s, sub, i) && i > 0 ==> OccursAt(s[1..], sub, i - 1);
      r
  }

  /** ASCII lower-casing of one character; every other character is kept. */
  function LowerChar(c: char): char {
    if 'A' <= c <= 'Z' then (c as int + 32) as char else c
  }

  /** `s.lower()`, restricted to ASCII letters. */
  function Lower(s: string): (r: string)
    ensures |r| == |s|
    ensures forall i :: 0 <= i < |s| ==> r[i] == LowerChar(s[i])
    ensures forall i :: 0 <= i < |r| ==> !('A' <= r[i] <= 'Z')
  {
    seq(|s|, i requires 0 <= i < |s| => LowerChar(s[i]))
  }

  /** JavaScript's `length`: the number of UTF-16 code units, two for a character
      outside the Basic Multilingual Plane, one for any other. */
  function Utf16Length(s: string): (n: nat)
    ensures |s| <= n <= 2 * |s|
    ensures (forall i :: 0 <= i < |s| ==> s[i] <= '\U{FFFF}') ==> n == |s|
    ensures (forall i :: 0 <= i < |s| ==> s[i] > '\U{FFFF}') ==> n == 2 * |s|
  {
    if s == [] then 0
    else
      assert forall i :: 0 <= i < |s| - 1 ==> s[1..][i] == s[i + 1];
      (if s[0] > '\U{FFFF}' then 2 else 1) + Utf16Length(s[1..])
  }

  predicate IsDigit(c: char) {
    '0' <= c <= '9'
  }

  function DigitChar(d: nat): (c: char)
    requires d < 10
    ensures IsDigit(c) && c as int - '0' as int == d
  {
    (d + '0' as int) as char
  }

  /** The decimal rendering of a non-negative integer, as Python's `f"{n}"`
      and JavaScript's template literals print it. */
  function NatToString(n: nat): (s: string)
    ensures 1 <= |s|
    ensures forall i :: 0 <= i < |s| ==> IsDigit(s[i])
    ensures s[0] == '0' ==> n == 0
    decreases n
  {
    if n < 10 then [DigitChar(n)] else NatToString(n / 10) + [DigitChar(n % 10)]
  }

  /** The value of a string of decimal digits. */
  function ParseNat(s: string): nat
    requires forall i :: 0 <= i < |s| ==> IsDigit(s[i])
    decreases |s|
  {
    if |s| == 0 then 0
    else
      assert IsDigit(s[|s| - 1]);
      ParseNat(s[..|s| - 1]) * 10 + (s[|s| - 1] as int - '0' as int)
  }

  /** The decimal rendering is read back as the number it renders. */
  lemma {:induction false} ParseNatToString(n: nat)
    ensures ParseNat(NatToString(n)) == n
    decreases n
  {
    var s := NatToString(n);
    if n >= 10 {
      ParseNatToString(n / 10);
      assert s[..|s| - 1] == NatToString(n / 10);
    }
  }

  /** Distinct numbers render differently. */
  lemma NatToStringInjective(m: nat, n: nat)
    requires NatToString(m) == NatToString(n)
    ensures m == n
  {
    ParseNatToString(m);
    ParseNatToString(n);
  }

  /** `sep.join(parts)` / `parts.join(sep)`. */
  function Join(parts: seq<string>, sep: string): string
    decreases |parts|
  {
    if |parts| == 0 then ""
    else if |parts| == 1 then parts[0]
    else Join(parts[..|parts| - 1], sep) + sep + parts[|parts| - 1]
  }

  /** JavaScript's `s.split(c)` on a one-character separator. */
  function Split(s: string, c: char): (parts: seq<string>)
    ensures 1 <= |parts|
    decreases |s|
  {
    if |s| == 0 then [""]
    else
      var rest := Split(s[1..], c);
      if s[0] == c then [""] + rest else [[s[0]] + rest[0]] + rest[1..]
  }

  /** Joining the pieces of a split with the separator gives the string back. */
  lemma {:induction false} JoinSplit(s: string, c: char)
    ensures Join(Split(s, c), [c]) == s
    decreases |s|
  {
    if |s| > 0 {
      var rest := Split(s[1..], c);
      JoinSplit(s[1..], c);
      if s[0] == c {
        JoinCons("", rest, [c]);
      } else {
        JoinHeadExtend([s[0]], rest, [c]);
      }
    }
  }

  /** No piece of a split contains the separator. */
  lemma {:induction false} SplitPiecesFree(s: string, c: char)
    ensures forall k :: 0 <= k < |Split(s, c)| ==> c !in Split(s, c)[k]
    decreases |s|
  {
    if |s| > 0 {
      SplitPiecesFree(s[1..], c);
    }
  }

  /** Adding a first part puts it, and then a separator, in front. */
  lemma {:induction false} JoinCons(p: string, parts: seq<string>, sep: string)
    requires 1 <= |parts|
    ensures Join([p] + parts, sep) == p + sep + Join(parts, sep)
    decreases |parts|
  {
    if |parts| == 1 {
      assert [p] + parts == [p, parts[0]];
    } else {
      var init := parts[..|parts| - 1];
      JoinCons(p, init, sep);
      assert ([p] + parts)[..|parts|] == [p] + init;
    }
  }

  /** Prefixing the first part prefixes the whole join. */
  lemma {:induction false} JoinHeadExtend(x: string, parts: seq<string>, sep: string)
    requires 1 <= |parts|
    ensures Join([x + parts[0]] + parts[1..], sep) == x + Join(parts, sep)
    decreases |parts|
  {
    var n := |parts|;
    var q := [x + parts[0]] + parts[1..];
    if n > 1 {
      var init := parts[..n - 1];
      JoinHeadExtend(x, init, sep);
      assert q[..n - 1] == [x + init[0]] + init[1..];
      assert q[n - 1] == parts[n - 1];
      calc {
        Join(q, sep);
        Join(q[..n - 1], sep) + sep + q[n - 1];
        (x + Join(init, sep)) + sep + parts[n - 1];
        x + (Join(init, sep) + sep + parts[n - 1]);
        x + Join(parts, sep);
      }
    }
  }
}
