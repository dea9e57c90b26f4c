/** The JavaScript string operations the application relies on: `startsWith`, `endsWith`,
    `includes`, `indexOf`, `replace` with a string pattern, `substr`, `slice(-n)`, `trim`,
    ASCII upper-casing, decimal rendering of a number, and the code-point order in which the
    blob service lists pathnames. */
module Strings {
  import opened Common

  predicate StartsWith(s: string, p: string) {
    |p| <= |s| && s[..|p|] == p
  }

  predicate EndsWith(s: string, p: string) {
    |p| <= |s| && s[|s| - |p|..] == p
  }

  /** `p` occurs in `s` starting at index `i`. */
  predicate OccursAt(s: string, p: string, i: nat) {
    i + |p| <= |s| && s[i..i + |p|] == p
  }

  lemma OccursAtTail(s: string, p: string, i: nat)
    requires |s| > 0
    ensures OccursAt(s[1..], p, i) <==> OccursAt(s, p, i + 1)
  {
    if i + 1 + |p| <= |s| {
      assert s[1..][i..i + |p|] == s[i + 1..i + 1 + |p|];
    }
  }

  /** JavaScript `s.indexOf(p)`: the index of the first occurrence of `p`, if any. */
  function IndexOf(s: string, p: string): (r: Option<nat>)
    ensures r.Some? ==> OccursAt(s, p, r.value)
    ensures r.Some? ==> forall j: nat :: j < r.value ==> !OccursAt(s, p, j)
    ensures r.None? ==> forall j: nat :: !OccursAt(s, p, j)
    decreases |s|
  {
    if StartsWith(s, p) then
      assert s[0..|p|] == s[..|p|];
      Some(0)
    else if |s| == 0 then
      None
    else
      match IndexOf(s[1..], p)
      case None =>
        assert forall j: nat :: !OccursAt(s, p, j) by {
          forall j: nat ensures !OccursAt(s, p, j) {
            if j == 0 {
              if |p| <= |s| { assert s[0..|p|] == s[..|p|]; }
            } else {
              OccursAtTail(s, p, j - 1);
            }
          }
        }
        None
      case Some(i) =>
        OccursAtTail(s, p, i);
        assert forall j: nat :: j < i + 1 ==> !OccursAt(s, p, j) by {
          forall j: nat | j < i + 1 ensures !OccursAt(s, p, j) {
            if j == 0 {
              if |p| <= |s| { assert s[0..|p|] == s[..|p|]; }
            } else {
              OccursAtTail(s, p, j - 1);
            }
          }
        }
        Some(i + 1)
  }

  /** An occurrence with none before it is the one `indexOf` finds. */
  lemma IndexOfFirst(s: string, p: string, i: nat)
    requires OccursAt(s, p, i)
    requires forall j: nat :: j < i ==> !OccursAt(s, p, j)
    ensures IndexOf(s, p) == Some(i)
  {
  }

  /** JavaScript `s.includes(p)`. */
  predicate Contains(s: string, p: string) {
    IndexOf(s, p).Some?
  }

  /** JavaScript `s.replace(p, r)` with a string pattern: only the first occurrence of `p` is
      replaced, and `s` is returned unchanged when `p` does not occur. */
  function ReplaceFirst(s: string, p: string, r: string): string {
    match IndexOf(s, p)
    case None => s
    case Some(i) => s[..i] + r + s[i + |p|..]
  }

  /** JavaScript `s.substr(start, length)` for a non-negative start. */
  function Substr(s: string, start: nat, length: nat): (r: string)
    ensures |r| <= length
    ensures |r| == if |s| <= start then 0 else if start + length <= |s| then length else |s| - start
    ensures forall i :: 0 <= i < |r| ==> start + i < |s| && r[i] == s[start + i]
  {
    if |s| <= start then ""
    else if start + length <= |s| then s[start..start + length]
    else s[start..]
  }

  /** JavaScript `s.slice(-n)` for a positive n: the last `n` characters, or all of `s`. */
  function LastChars(s: string, n: nat): (r: string)
    requires n > 0
    ensures |r| == if |s| < n then |s| else n
    ensures EndsWith(s, r)
  {
    if |s| <= n then s else s[|s| - n..]
  }

  predicate IsDigit(c: char) {
    '0' <= c <= '9'
  }

  predicate IsLower(c: char) {
    'a' <= c <= 'z'
  }

  predicate IsUpper(c: char) {
    'A' <= c <= 'Z'
  }

  /** The characters of a base-36 numeral as JavaScript's `toString(36)` writes them. */
  predicate IsBase36Digit(c: char) {
    IsDigit(c) || IsLower(c)
  }

  function UpperChar(c: char): (u: char)
    ensures IsLower(c) ==> IsUpper(u)
    ensures !IsLower(c) ==> u == c
  {
    if IsLower(c) then (c as int - 32) as char else c
  }

  /** `toUpperCase` restricted to the ASCII letters; other characters are kept. */
  function ToUpper(s: string): (r: string)
    ensures |r| == |s|
    ensures forall i :: 0 <= i < |s| ==> r[i] == UpperChar(s[i])
  {
    seq(|s|, i requires 0 <= i < |s| => UpperChar(s[i]))
  }

  function DigitChar(d: nat): (c: char)
    requires d < 10
    ensures IsDigit(c)
  {
    ('0' as int + d) as char
  }

  /** The value of a decimal digit. */
  function DigitValue(c: char): (d: nat)
    requires IsDigit(c)
    ensures d < 10
  {
    c as int - '0' as int
  }

  predicate AllDigits(r: string) {
    forall i :: 0 <= i < |r| ==> IsDigit(r[i])
  }

  /** The number a string of decimal digits denotes, most significant digit first. */
  function NumeralValue(r: string): nat
    requires AllDigits(r)
  {
    if r == [] then 0 else NumeralValue(r[..|r| - 1]) * 10 + DigitValue(r[|r| - 1])
  }

  /** `n.toString()` for a non-negative integer: its decimal numeral without leading zeros. */
  function Decimal(n: nat): (r: string)
    ensures |r| >= 1 && AllDigits(r)
  {
    if n < 10 then [DigitChar(n)] else Decimal(n / 10) + [DigitChar(n % 10)]
  }

  /** The numeral `toString()` writes denotes the number, and starts with `0` only for 0. */
  lemma {:induction false} DecimalDenotes(n: nat)
    ensures NumeralValue(Decimal(n)) == n
    ensures Decimal(n)[0] == '0' ==> n == 0
  {
    if n >= 10 {
      DecimalDenotes(n / 10);
      var r := Decimal(n);
      assert r[..|r| - 1] == Decimal(n / 10);
      assert r[0] == Decimal(n / 10)[0];
    }
  }

  /** Splitting a numeral before its last `k` digits splits its value: the front counts in
      units of `10^k`, and the last `k` digits denote a number below `10^k`. */
  lemma {:induction false} NumeralSplit(r: string, k: nat)
    requires AllDigits(r) && k <= |r|
    ensures AllDigits(r[..|r| - k]) && AllDigits(r[|r| - k..])
    ensures NumeralValue(r) == NumeralValue(r[..|r| - k]) * Pow10(k) + NumeralValue(r[|r| - k..])
    ensures NumeralValue(r[|r| - k..]) < Pow10(k)
  {
    var t := r[|r| - k..];
    if k == 0 {
      assert t == [] && r[..|r|] == r;
    } else {
      var front := r[..|r| - 1];
      NumeralSplit(front, k - 1);
      assert front[..|front| - (k - 1)] == r[..|r| - k];
      assert t[..|t| - 1] == front[|front| - (k - 1)..] && t[|t| - 1] == r[|r| - 1];
      SplitStep(NumeralValue(r[..|r| - k]), Pow10(k - 1), NumeralValue(front[|front| - (k - 1)..]),
                DigitValue(r[|r| - 1]));
    }
  }

  /** Appending a digit `d` to a number `w * p + v` with `v < p`. */
  lemma SplitStep(w: nat, p: nat, v: nat, d: nat)
    requires v < p && d < 10
    ensures (w * p + v) * 10 + d == w * (10 * p) + (v * 10 + d)
    ensures v * 10 + d < 10 * p
  {
  }

  /** A number of at least `10^k` has at least `k + 1` decimal digits. */
  lemma {:induction false} DecimalLength(n: nat, k: nat)
    requires n >= Pow10(k)
    ensures |Decimal(n)| >= k + 1
  {
    if k > 0 {
      assert n >= 10;
      DecimalLength(n / 10, k - 1);
    }
  }

  function Pow10(k: nat): (p: nat)
    ensures p >= 1
  {
    if k == 0 then 1 else 10 * Pow10(k - 1)
  }

  /** The characters `String.prototype.trim` removes: the white-space and line-terminator
      code points of section 12.2 and 12.3 of ECMAScript. */
  predicate IsJsWhitespace(c: char) {
    c == '\t' || c == '\n' || c == '\U{000B}' || c == '\U{000C}' || c == '\r' || c == ' '
    || c == '\U{00A0}' || c == '\U{1680}' || ('\U{2000}' <= c <= '\U{200A}')
    || c == '\U{2028}' || c == '\U{2029}' || c == '\U{202F}' || c == '\U{205F}'
    || c == '\U{3000}' || c == '\U{FEFF}'
  }

  function TrimStart(s: string): string {
    if |s| > 0 && IsJsWhitespace(s[0]) then TrimStart(s[1..]) else s
  }

  function TrimEnd(s: string): string {
    if |s| > 0 && IsJsWhitespace(s[|s| - 1]) then TrimEnd(s[..|s| - 1]) else s
  }

  /** JavaScript `s.trim()`. */
  function Trim(s: string): string {
    TrimEnd(TrimStart(s))
  }

  predicate AllWhitespace(s: string) {
    forall i :: 0 <= i < |s| ==> IsJsWhitespace(s[i])
  }

  lemma {:induction false} TrimStartEmpty(s: string)
    ensures TrimStart(s) == "" <==> AllWhitespace(s)
  {
    if |s| > 0 && IsJsWhitespace(s[0]) {
      TrimStartEmpty(s[1..]);
      assert AllWhitespace(s[1..]) ==> AllWhitespace(s) by {
        if AllWhitespace(s[1..]) {
          forall i | 0 <= i < |s| ensures IsJsWhitespace(s[i]) {
            if i > 0 { assert s[i] == s[1..][i - 1]; }
          }
        }
      }
    }
  }

  lemma {:induction false} TrimEndOfNonWhitespaceHead(s: string)
    requires |s| > 0
    ensures (!IsJsWhitespace(s[0])) ==> TrimEnd(s) != ""
    decreases |s|
  {
    if !IsJsWhitespace(s[0]) && IsJsWhitespace(s[|s| - 1]) && |s| > 1 {
      TrimEndOfNonWhitespaceHead(s[..|s| - 1]);
    }
  }

  /** `s.trim()` is empty exactly when every character of `s` is white space. */
  lemma TrimEmpty(s: string)
    ensures Trim(s) == "" <==> AllWhitespace(s)
  {
    TrimStartEmpty(s);
    var t := TrimStart(s);
    if t != "" {
      TrimStartHead(s);
      TrimEndOfNonWhitespaceHead(t);
    }
  }

  lemma {:induction false} TrimStartHead(s: string)
    ensures TrimStart(s) != "" ==> !IsJsWhitespace(TrimStart(s)[0])
  {
    if |s| > 0 && IsJsWhitespace(s[0]) {
      TrimStartHead(s[1..]);
    }
  }

  /** Code-point lexicographic order: the order in which the blob service lists pathnames. */
  predicate LexLe(a: string, b: string)
    decreases |a|
  {
    |a| == 0 || (|b| > 0 && (a[0] < b[0] || (a[0] == b[0] && LexLe(a[1..], b[1..]))))
  }

  lemma {:induction false} LexLeRefl(a: string)
    ensures LexLe(a, a)
  {
    if |a| > 0 { LexLeRefl(a[1..]); }
  }

  lemma {:induction false} LexLeAntisymmetric(a: string, b: string)
    requires LexLe(a, b) && LexLe(b, a)
    ensures a == b
  {
    if |a| > 0 && |b| > 0 {
      LexLeAntisymmetric(a[1..], b[1..]);
      assert a == [a[0]] + a[1..] && b == [b[0]] + b[1..];
    }
  }

  lemma {:induction false} LexLeTransitive(a: string, b: string, c: string)
    requires LexLe(a, b) && LexLe(b, c)
    ensures LexLe(a, c)
  {
    if |a| > 0 && |b| > 0 && |c| > 0 && a[0] == b[0] == c[0] {
      LexLeTransitive(a[1..], b[1..], c[1..]);
    }
  }

  lemma {:induction false} LexLeTotal(a: string, b: string)
    ensures LexLe(a, b) || LexLe(b, a)
  {
    if |a| > 0 && |b| > 0 && a[0] == b[0] {
      LexLeTotal(a[1..], b[1..]);
    }
  }

  /** A prefix is listed before every string it begins. */
  lemma {:induction false} PrefixLexLe(a: string, b: string)
    requires StartsWith(b, a)
    ensures LexLe(a, b)
  {
    if |a| > 0 {
      assert b[0] == a[0];
      assert StartsWith(b[1..], a[1..]) by {
        assert b[1..][..|a| - 1] == b[..|a|][1..];
      }
      PrefixLexLe(a[1..], b[1..]);
    }
  }
}
