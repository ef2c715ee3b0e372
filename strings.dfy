/** The few pieces of JavaScript string behaviour the core relies on:
    `String(n)` for a non-negative integer, `includes`, `trim` and a single `replace`. */
module Strings {
  import Seqs

  // ---------------------------------------------------------------------------
  // String(n) for a natural number, and its inverse

  predicate IsDigit(c: char) {
    '0' <= c <= '9'
  }

  function DigitChar(d: nat): (c: char)
    requires d < 10
    ensures IsDigit(c) && c as int - '0' as int == d
  {
    (('0' as int) + d) as char
  }

  function DigitValue(c: char): (d: nat)
    requires IsDigit(c)
    ensures d < 10 && DigitChar(d) == c
  {
    (c as int) - ('0' as int)
  }

  /** The decimal numeral of `n`, as JavaScript's `String(n)` writes it. */
  function NatToString(n: nat): (s: string)
    ensures |s| > 0
    ensures forall i :: 0 <= i < |s| ==> IsDigit(s[i])
    ensures s[0] == '0' ==> n == 0 && s == "0"
    decreases n
  {
    if n < 10 then [DigitChar(n)] else NatToString(n / 10) + [DigitChar(n % 10)]
  }

  /** Reads a string of decimal digits back as a number. */
  function ParseDigits(s: string): nat
    requires forall i :: 0 <= i < |s| ==> IsDigit(s[i])
  {
    if s == [] then 0 else 10 * ParseDigits(s[..|s| - 1]) + DigitValue(s[|s| - 1])
  }

  lemma {:induction false} ParseNatToString(n: nat)
    ensures ParseDigits(NatToString(n)) == n
    decreases n
  {
    var s := NatToString(n);
    if n >= 10 {
      ParseNatToString(n / 10);
      assert s[..|s| - 1] == NatToString(n / 10);
    } else {
      assert s[..|s| - 1] == [];
    }
  }

  /** Different numbers have different numerals, so ids made by `String(length + 1)` never repeat. */
  lemma NatToStringInjective(m: nat, n: nat)
    ensures NatToString(m) == NatToString(n) <==> m == n
  {
    if NatToString(m) == NatToString(n) {
      ParseNatToString(m);
      ParseNatToString(n);
    }
  }

  // ---------------------------------------------------------------------------
  // includes

  predicate StartsWith(s: string, prefix: string) {
    |prefix| <= |s| && s[..|prefix|] == prefix
  }

  /** `sub` occurs in `s` starting at offset `i`. */
  predicate OccursAt(s: string, sub: string, i: int) {
    0 <= i && i + |sub| <= |s| && s[i..i + |sub|] == sub
  }

  /** `s.includes(sub)`: whether `sub` occurs in `s` at some offset. */
  function Includes(s: string, sub: string): (b: bool)
    ensures b <==> exists i :: OccursAt(s, sub, i)
    decreases |s|
  {
    if StartsWith(s, sub) then
      assert OccursAt(s, sub, 0);
      true
    else if |s| <= |sub| then
      assert forall i :: OccursAt(s, sub, i) ==> i == 0;
      false
    else
      var b := Includes(s[1..], sub);
      assert forall i :: OccursAt(s[1..], sub, i) <==> OccursAt(s, sub, i + 1) by {
        forall i ensures OccursAt(s[1..], sub, i) <==> OccursAt(s, sub, i + 1) {
          if 0 <= i && i + 1 + |sub| <= |s| {
            SliceOfTail(s, i, |sub|);
          }
        }
      }
      assert forall i :: OccursAt(s, sub, i) ==> i == 0 || OccursAt(s[1..], sub, i - 1);
      b
  }

  /** A slice of `s[1..]` is the slice of `s` one position further on. */
  lemma SliceOfTail(s: string, i: nat, n: nat)
    requires i + 1 + n <= |s|
    ensures s[1..][i..i + n] == s[i + 1..i + 1 + n]
  {
    var a, b := s[1..][i..i + n], s[i + 1..i + 1 + n];
    forall j | 0 <= j < n
      ensures a[j] == b[j]
    {
      assert a[j] == s[1..][i + j] == s[i + 1 + j];
    }
    assert a == b;
  }

  /** A string built as a + b + c + d starts with a + b + c and includes b. */
  lemma ConcatStartsAndIncludes(a: string, b: string, c: string, d: string)
    ensures StartsWith(a + b + c + d, a + b + c)
    ensures Includes(a + b + c + d, b)
  {
    var s := a + b + c + d;
    assert s[..|a + b + c|] == a + b + c;
    assert s == a + b + (c + d);
    IncludesConcat(a, b, c + d);
  }

  lemma IncludesConcat(a: string, sub: string, b: string)
    ensures Includes(a + sub + b, sub)
  {
    var s := a + sub + b;
    assert s[|a|..|a| + |sub|] == sub;
    assert OccursAt(s, sub, |a|);
  }

  // ---------------------------------------------------------------------------
  // trim

  /** The characters ECMAScript's `String.prototype.trim` strips: WhiteSpace
      (tab, vertical tab, form feed, space, no-break space, byte order mark and the
      Unicode space separators) and LineTerminator (LF, CR, U+2028, U+2029). */
  predicate IsWhitespace(c: char) {
    var n := c as int;
    n == 0x09 || n == 0x0A || n == 0x0B || n == 0x0C || n == 0x0D || n == 0x20
    || n == 0xA0 || n == 0x1680 || (0x2000 <= n <= 0x200A) || n == 0x2028 || n == 0x2029
    || n == 0x202F || n == 0x205F || n == 0x3000 || n == 0xFEFF
  }

  predicate AllWhitespace(s: string) {
    forall i :: 0 <= i < |s| ==> IsWhitespace(s[i])
  }

  /** The number of whitespace characters `s` starts with. */
  function LeadingWhitespace(s: string): (k: nat)
    ensures k <= |s|
    ensures forall j :: 0 <= j < k ==> IsWhitespace(s[j])
    ensures k < |s| ==> !IsWhitespace(s[k])
    decreases |s|
  {
    if s != [] && IsWhitespace(s[0]) then LeadingWhitespace(s[1..]) + 1 else 0
  }

  /** The number of whitespace characters `s` ends with. */
  function TrailingWhitespace(s: string): (k: nat)
    ensures k <= |s|
    ensures forall j :: |s| - k <= j < |s| ==> IsWhitespace(s[j])
    ensures k < |s| ==> !IsWhitespace(s[|s| - k - 1])
    decreases |s|
  {
    if s != [] && IsWhitespace(s[|s| - 1]) then TrailingWhitespace(s[..|s| - 1]) + 1 else 0
  }

  /** `r` is `s` with whitespace-only text cut off at both ends, `r` starting at offset `i`. */
  predicate TrimmedAt(s: string, r: string, i: int) {
    0 <= i && i + |r| <= |s| && s[i..i + |r|] == r
    && (forall j :: 0 <= j < i ==> IsWhitespace(s[j]))
    && (forall j :: i + |r| <= j < |s| ==> IsWhitespace(s[j]))
  }

  /** `s.trim()`: the middle of `s` left after removing whitespace at both ends; it starts
      where the leading whitespace ends. */
  function Trim(s: string): (r: string)
    ensures TrimmedAt(s, r, LeadingWhitespace(s))
    ensures r == [] || (!IsWhitespace(r[0]) && !IsWhitespace(r[|r| - 1]))
  {
    var i := LeadingWhitespace(s);
    var k := TrailingWhitespace(s[i..]);
    TrimParts(s, i, k);
    s[i..|s| - k]
  }

  /** Cutting `i` leading and `k` trailing whitespace characters, as `Trim` counts them,
      leaves a middle that starts at `i` and neither starts nor ends with whitespace. */
  lemma TrimParts(s: string, i: nat, k: nat)
    requires i <= |s| && k <= |s| - i
    requires forall j :: 0 <= j < i ==> IsWhitespace(s[j])
    requires i < |s| ==> !IsWhitespace(s[i])
    requires forall j :: |s| - i - k <= j < |s| - i ==> IsWhitespace(s[i..][j])
    requires k < |s| - i ==> !IsWhitespace(s[i..][|s| - i - k - 1])
    ensures TrimmedAt(s, s[i..|s| - k], i)
    ensures var r := s[i..|s| - k];
            r == [] || (!IsWhitespace(r[0]) && !IsWhitespace(r[|r| - 1]))
  {
    forall j | |s| - k <= j < |s|
      ensures IsWhitespace(s[j])
    {
      assert s[j] == s[i..][j - i];
    }
    if i + k < |s| {
      var r := s[i..|s| - k];
      assert r[0] == s[i];
      assert r[|r| - 1] == s[|s| - k - 1] == s[i..][|s| - i - k - 1];
    }
  }

  /** The trimmed string is empty exactly when the string is all whitespace. */
  lemma TrimEmptyIff(s: string)
    ensures Trim(s) == [] <==> AllWhitespace(s)
  {
    var i := LeadingWhitespace(s);
    if Trim(s) != [] {
      assert Trim(s)[0] == s[i];
    }
  }

  lemma TrimIdempotent(s: string)
    ensures Trim(Trim(s)) == Trim(s)
  {
    var r := Trim(s);
    if r != [] {
      assert LeadingWhitespace(r) == 0;
      assert r[0..] == r;
      assert TrailingWhitespace(r) == 0;
    }
  }

  // ---------------------------------------------------------------------------
  // replace with a one-character pattern

  /** `s.replace(from, to)` with one-character strings: the first occurrence, found as
      `indexOf` finds it, is replaced and every other character is kept. */
  function ReplaceFirst(s: string, from: char, to: char): (r: string)
    ensures |r| == |s|
    ensures forall i :: 0 <= i < |s| ==>
              r[i] == if s[i] == from && from !in s[..i] then to else s[i]
    ensures from !in s ==> r == s
  {
    match Seqs.FirstIndex(s, from)
    case None => s
    case Some(k) =>
      var r := s[..k] + [to] + s[k + 1..];
      assert forall i :: 0 <= i < |s| ==> r[i] == if s[i] == from && from !in s[..i] then to else s[i] by {
        forall i | 0 <= i < |s|
          ensures r[i] == if s[i] == from && from !in s[..i] then to else s[i]
        {
          if i < k {
            assert s[i] == s[..k][i];
          } else if i > k {
            assert s[..i][k] == from;
          }
        }
      }
      r
  }
}
