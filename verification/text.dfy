/** The handful of JavaScript string operations the services rely on:
    `toLowerCase` (on ASCII letters), `includes`, `trim`, `join` and the
    decimal rendering of a non-negative integer. */
module Text {

  /** `toLowerCase` restricted to ASCII: every other character is kept. */
  function LowerChar(c: char): char {
    if 'A' <= c <= 'Z' then (c as int + 32) as char else c
  }

  function Lower(s: string): (r: string)
    ensures |r| == |s|
    ensures forall i :: 0 <= i < |s| ==> r[i] == LowerChar(s[i])
  {
    seq(|s|, i requires 0 <= i < |s| => LowerChar(s[i]))
  }

  lemma LowerIsIdempotent(s: string)
    ensures Lower(Lower(s)) == Lower(s)
  {
  }

  /** `sub` occurs in `s` starting at index `i`. */
  predicate OccursAt(s: string, sub: string, i: int) {
    0 <= i && i + |sub| <= |s| && s[i..i + |sub|] == sub
  }

  /** A string occurs where it was placed. */
  lemma OccursBetween(a: string, b: string, c: string)
    ensures OccursAt(a + b + c, b, |a|)
  {
    assert (a + b + c)[|a|..|a| + |b|] == b;
  }

  /** An occurrence survives putting text around the string. */
  lemma OccursInside(h: string, s: string, t: string, sub: string, i: int)
    requires OccursAt(s, sub, i)
    ensures OccursAt(h + s + t, sub, |h| + i)
  {
    var w := h + s + t;
    forall k | 0 <= k < |sub| ensures w[|h| + i..|h| + i + |sub|][k] == sub[k] {
      assert w[|h| + i + k] == s[i + k];
      assert s[i..i + |sub|][k] == s[i + k];
    }
  }

  /** `s.includes(sub)`. */
  predicate Contains(s: string, sub: string) {
    exists i | 0 <= i <= |s| - |sub| :: OccursAt(s, sub, i)
  }

  /** `parts.join(sep)`. */
  function Join(parts: seq<string>, sep: string): string {
    if |parts| == 0 then ""
    else if |parts| == 1 then parts[0]
    else parts[0] + sep + Join(parts[1..], sep)
  }

  /** The decimal digit for `d`. */
  function DigitChar(d: nat): char
    requires d < 10
  {
    ('0' as int + d) as char
  }

  /** The decimal rendering of `n`, as a template literal prints it. */
  function NatToString(n: nat): string
    decreases n
  {
    if n < 10 then [DigitChar(n)] else NatToString(n / 10) + [DigitChar(n % 10)]
  }

  /** JavaScript's `length`: the number of UTF-16 code units, where a
      character outside the Basic Multilingual Plane takes a surrogate pair. */
  function Utf16Length(s: string): (n: nat)
    ensures |s| <= n <= 2 * |s|
    ensures n == |s| <==> forall i :: 0 <= i < |s| ==> (s[i] as int) < 0x10000
    decreases |s|
  {
    if |s| == 0 then 0
    else
      var rest := Utf16Length(s[1..]);
      assert forall i :: 1 <= i < |s| ==> s[1..][i - 1] == s[i];
      (if (s[0] as int) < 0x10000 then 1 else 2) + rest
  }

  /** Code units add up over concatenation. */
  lemma {:induction false} Utf16LengthAppend(a: string, b: string)
    ensures Utf16Length(a + b) == Utf16Length(a) + Utf16Length(b)
    decreases |a|
  {
    if |a| > 0 {
      assert (a + b)[1..] == a[1..] + b;
      Utf16LengthAppend(a[1..], b);
    } else {
      assert a + b == b;
    }
  }

  /** The characters `String.prototype.trim` removes (ECMAScript WhiteSpace and
      LineTerminator). */
  predicate IsJsWhitespace(c: char) {
    var n := c as int;
    || n == 0x09 || n == 0x0A || n == 0x0B || n == 0x0C || n == 0x0D || n == 0x20
    || n == 0xA0 || n == 0x1680 || (0x2000 <= n <= 0x200A) || n == 0x2028
    || n == 0x2029 || n == 0x202F || n == 0x205F || n == 0x3000 || n == 0xFEFF
  }

  function TrimStart(s: string): (r: string)
    ensures |r| <= |s| && r == s[|s| - |r|..]
    ensures forall i :: 0 <= i < |s| - |r| ==> IsJsWhitespace(s[i])
    ensures |r| == 0 || !IsJsWhitespace(r[0])
  {
    if |s| > 0 && IsJsWhitespace(s[0]) then
      var r := TrimStart(s[1..]);
      assert s[1..][|s| - 1 - |r|..] == s[|s| - |r|..];
      assert forall i :: 1 <= i < |s| - |r| ==> s[i] == s[1..][i - 1];
      r
    else s
  }

  function TrimEnd(s: string): (r: string)
    ensures |r| <= |s| && r == s[..|r|]
    ensures forall i :: |r| <= i < |s| ==> IsJsWhitespace(s[i])
    ensures |r| == 0 || !IsJsWhitespace(r[|r| - 1])
  {
    if |s| > 0 && IsJsWhitespace(s[|s| - 1]) then
      var r := TrimEnd(s[..|s| - 1]);
      assert s[..|s| - 1][..|r|] == s[..|r|];
      assert forall i :: |r| <= i < |s| - 1 ==> s[i] == s[..|s| - 1][i];
      r
    else s
  }

  /** `r` is `s` with the first `k` characters and everything after
      `k + |r|` cut off, and only whitespace was cut. */
  predicate StripsAt(s: string, r: string, k: int) {
    0 <= k && k + |r| <= |s| && s[k..k + |r|] == r
    && (forall i :: 0 <= i < k ==> IsJsWhitespace(s[i]))
    && (forall i :: k + |r| <= i < |s| ==> IsJsWhitespace(s[i]))
  }

  /** No whitespace at either end. */
  predicate Unpadded(r: string) {
    |r| == 0 || (!IsJsWhitespace(r[0]) && !IsJsWhitespace(r[|r| - 1]))
  }

  /** `s.trim()`: `s` with its leading and trailing whitespace removed. */
  function Trim(s: string): (r: string)
    ensures Contains(s, r)
    ensures Unpadded(r)
    ensures StripsAt(s, r, |s| - |TrimStart(s)|)
  {
    var t := TrimStart(s);
    var r := TrimEnd(t);
    PrefixOfSuffixOccurs(s, t, r);
    assert |r| == 0 || r[0] == t[0];
    StripsPrefixOfSuffix(s, t, r);
    r
  }

  /** Cutting whitespace off the front and then off the back strips `s`. */
  lemma {:induction false} StripsPrefixOfSuffix(s: string, t: string, r: string)
    requires |t| <= |s| && t == s[|s| - |t|..] && forall i :: 0 <= i < |s| - |t| ==> IsJsWhitespace(s[i])
    requires |r| <= |t| && r == t[..|r|] && forall i :: |r| <= i < |t| ==> IsJsWhitespace(t[i])
    ensures StripsAt(s, r, |s| - |t|)
  {
    var k := |s| - |t|;
    PrefixOfSuffixOccurs(s, t, r);
    forall i | k + |r| <= i < |s| ensures IsJsWhitespace(s[i]) {
      assert s[i] == t[i - k];
    }
  }

  /** Removing only outer whitespace until neither end is whitespace has
      one outcome: any such cut of `s` is `Trim(s)`. */
  lemma {:induction false} TrimIsTheUnpaddedCut(s: string, r: string, k: int)
    requires StripsAt(s, r, k) && Unpadded(r)
    ensures r == Trim(s)
  {
    var t := Trim(s);
    var j := |s| - |TrimStart(s)|;
    if |r| > 0 && |t| > 0 {
      assert s[k] == r[0] by { assert s[k..k + |r|][0] == r[0]; }
      assert s[j] == t[0] by { assert s[j..j + |t|][0] == t[0]; }
      var e := k + |r| - 1;
      var f := j + |t| - 1;
      assert s[e] == r[|r| - 1] by { assert s[k..k + |r|][|r| - 1] == r[|r| - 1]; }
      assert s[f] == t[|t| - 1] by { assert s[j..j + |t|][|t| - 1] == t[|t| - 1]; }
    }
  }

  /** A prefix of a suffix of `s` is an infix of `s`. */
  lemma PrefixOfSuffixOccurs(s: string, t: string, r: string)
    requires |t| <= |s| && t == s[|s| - |t|..]
    requires |r| <= |t| && r == t[..|r|]
    ensures OccursAt(s, r, |s| - |t|)
  {
    var k := |s| - |t|;
    assert s[k..k + |r|] == r by {
      forall i | 0 <= i < |r| ensures s[k..k + |r|][i] == r[i] {
        assert r[i] == t[i] == s[k + i];
      }
    }
  }
}
