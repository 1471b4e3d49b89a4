/**
 * The string operations of JavaScript that the application relies on:
 * `trim`, `toLowerCase`, `includes`, `startsWith`, `endsWith`, `padStart`,
 * `join`, `replace`, and the decimal digits of a whole number.
 */
module Text {

  /** The characters `String.prototype.trim` removes: white space and line terminators. */
  predicate IsWhite(c: char) {
    c == ' ' || c == '\t' || c == '\n' || c == '\r' || c == '\U{000B}' || c == '\U{000C}'
    || c == '\U{00A0}' || c == '\U{1680}' || ('\U{2000}' <= c <= '\U{200A}')
    || c == '\U{2028}' || c == '\U{2029}' || c == '\U{202F}' || c == '\U{205F}'
    || c == '\U{3000}' || c == '\U{FEFF}'
  }

  /** `s` with its leading white space removed. */
  function TrimStart(s: string): (r: string)
    ensures |r| <= |s| && r == s[|s| - |r|..]
  {
    if s != [] && IsWhite(s[0]) then TrimStart(s[1..]) else s
  }

  /** `s` with its trailing white space removed. */
  function TrimEnd(s: string): (r: string)
    ensures |r| <= |s| && r == s[..|r|]
  {
    if s != [] && IsWhite(s[|s| - 1]) then TrimEnd(s[..|s| - 1]) else s
  }

  /** What `TrimStart` removes is white space, and what it keeps does not start with any. */
  lemma {:induction false} TrimStartSpec(s: string)
    ensures var r := TrimStart(s);
      (r == [] || !IsWhite(r[0])) && forall i :: 0 <= i < |s| - |r| ==> IsWhite(s[i])
  {
    if s != [] && IsWhite(s[0]) {
      var r := TrimStart(s[1..]);
      TrimStartSpec(s[1..]);
      assert TrimStart(s) == r;
      forall i | 0 <= i < |s| - |r|
        ensures IsWhite(s[i])
      {
        if i > 0 {
          assert s[i] == s[1..][i - 1];
        }
      }
    }
  }

  /** What `TrimEnd` removes is white space, and what it keeps does not end with any. */
  lemma {:induction false} TrimEndSpec(s: string)
    ensures var r := TrimEnd(s);
      (r == [] || !IsWhite(r[|r| - 1])) && forall i :: |r| <= i < |s| ==> IsWhite(s[i])
  {
    if s != [] && IsWhite(s[|s| - 1]) {
      var r := TrimEnd(s[..|s| - 1]);
      TrimEndSpec(s[..|s| - 1]);
      assert TrimEnd(s) == r;
      forall i | |r| <= i < |s|
        ensures IsWhite(s[i])
      {
        if i < |s| - 1 {
          assert s[i] == s[..|s| - 1][i];
        }
      }
    }
  }

  /** JavaScript's `s.trim()`. */
  function Trim(s: string): (r: string)
    ensures |r| <= |s|
  {
    TrimEnd(TrimStart(s))
  }

  /** A string is blank when nothing is left of it after `trim()`. */
  predicate IsBlank(s: string) {
    Trim(s) == ""
  }

  lemma BlankIffAllWhite(s: string)
    ensures IsBlank(s) <==> forall i :: 0 <= i < |s| ==> IsWhite(s[i])
  {
    var t := TrimStart(s);
    TrimStartSpec(s);
    TrimEndSpec(t);
    if t != [] {
      assert t[0] == s[|s| - |t|];
    }
  }

  /** A string with no white space at either end is its own trim. */
  lemma TrimNoop(s: string)
    requires s != [] && !IsWhite(s[0]) && !IsWhite(s[|s| - 1])
    ensures Trim(s) == s
  {
  }

  /** The ASCII part of `toLowerCase`. */
  function LowerChar(c: char): char {
    if 'A' <= c <= 'Z' then (c as int + 32) as char else c
  }

  /** JavaScript's `s.toLowerCase()` on ASCII letters. */
  function ToLower(s: string): (r: string)
    ensures |r| == |s|
    ensures forall i :: 0 <= i < |s| ==> r[i] == LowerChar(s[i])
  {
    if s == [] then [] else [LowerChar(s[0])] + ToLower(s[1..])
  }

  /** JavaScript's `s.includes(t)`: `t` occurs in `s` as a contiguous block. */
  predicate Contains(s: string, t: string) {
    StartsWith(s, t) || (s != [] && Contains(s[1..], t))
  }

  lemma EmptyContained(s: string)
    ensures Contains(s, "")
  {
    assert StartsWith(s, "");
  }

  /** A block of `s` starting at `i` is found by `includes`. */
  lemma {:induction false} ContainsAt(s: string, t: string, i: nat)
    requires i + |t| <= |s| && s[i..i + |t|] == t
    ensures Contains(s, t)
  {
    if i > 0 {
      assert s[1..][i - 1..i - 1 + |t|] == s[i..i + |t|];
      ContainsAt(s[1..], t, i - 1);
    }
  }

  /** JavaScript's `s.startsWith(p)`. */
  predicate StartsWith(s: string, p: string) {
    |p| <= |s| && s[..|p|] == p
  }

  lemma PrefixStarts(p: string, s: string)
    ensures StartsWith(p + s, p)
  {
    assert (p + s)[..|p|] == p;
  }

  /** JavaScript's `s.endsWith(p)`. */
  predicate EndsWith(s: string, p: string) {
    |p| <= |s| && s[|s| - |p|..] == p
  }

  predicate IsDigit(c: char) {
    '0' <= c <= '9'
  }

  predicate AllDigits(s: string) {
    forall i :: 0 <= i < |s| ==> IsDigit(s[i])
  }

  function DigitChar(d: nat): (c: char)
    requires d < 10
    ensures IsDigit(c)
  {
    ('0' as int + d) as char
  }

  function DigitValue(c: char): (d: nat)
    requires IsDigit(c)
    ensures d < 10 && DigitChar(d) == c
  {
    c as int - '0' as int
  }

  lemma DigitRoundTrip(d: nat)
    requires d < 10
    ensures DigitValue(DigitChar(d)) == d
  {
  }

  function Pow10(k: nat): (p: nat)
    ensures p >= 1
  {
    if k == 0 then 1 else 10 * Pow10(k - 1)
  }

  /** The decimal digits of `n`, most significant first, without leading zeros (`n.toString()`). */
  function NatDigits(n: nat): (r: string)
    ensures |r| >= 1 && AllDigits(r)
    ensures n > 0 ==> r[0] != '0'
  {
    if n < 10 then [DigitChar(n)] else NatDigits(n / 10) + [DigitChar(n % 10)]
  }

  /** The number a string of decimal digits denotes. */
  function DigitsValue(s: string): nat
    requires AllDigits(s)
  {
    if s == [] then 0 else DigitsValue(s[..|s| - 1]) * 10 + DigitValue(s[|s| - 1])
  }

  lemma {:induction false} DigitsRoundTrip(n: nat)
    ensures DigitsValue(NatDigits(n)) == n
  {
    if n >= 10 {
      var s := NatDigits(n / 10) + [DigitChar(n % 10)];
      assert s[..|s| - 1] == NatDigits(n / 10);
      DigitsRoundTrip(n / 10);
    }
  }

  lemma {:induction false} DigitsLength(n: nat, k: nat)
    requires 1 <= k && n < Pow10(k)
    ensures |NatDigits(n)| <= k
  {
    if n >= 10 {
      DigitsLength(n / 10, k - 1);
    }
  }

  lemma {:induction false} DigitsLengthAtLeast(n: nat, k: nat)
    requires Pow10(k) <= n
    ensures |NatDigits(n)| >= k + 1
  {
    if k > 0 {
      DigitsLengthAtLeast(n / 10, k - 1);
    }
  }

  function Repeat(c: char, k: nat): (r: string)
    ensures |r| == k && forall i :: 0 <= i < k ==> r[i] == c
  {
    if k == 0 then [] else [c] + Repeat(c, k - 1)
  }

  /** JavaScript's `s.padStart(len, c)` for a one-character pad. */
  function PadStart(s: string, len: nat, c: char): (r: string)
    ensures |r| == if |s| >= len then |s| else len
    ensures EndsWith(r, s)
  {
    if |s| >= len then s else Repeat(c, len - |s|) + s
  }

  /** JavaScript's `parts.join(sep)`. */
  function Join(parts: seq<string>, sep: string): string {
    if parts == [] then ""
    else if |parts| == 1 then parts[0]
    else parts[0] + sep + Join(parts[1..], sep)
  }

  /** The first index of `c` in `s`, or `|s|` when there is none (`indexOf`, with -1 read as `|s|`). */
  function IndexOf(s: string, c: char): (i: nat)
    ensures i <= |s| && (i < |s| ==> s[i] == c)
    ensures forall j :: 0 <= j < i ==> s[j] != c
  {
    if s == [] then 0 else if s[0] == c then 0 else 1 + IndexOf(s[1..], c)
  }

  /** JavaScript's `s.replace(a, b)` with a one-character string pattern: only the first `a` changes. */
  function ReplaceFirst(s: string, a: char, b: char): (r: string)
    ensures var i := IndexOf(s, a);
      r == if i == |s| then s else s[..i] + [b] + s[i + 1..]
  {
    if s == [] then []
    else if s[0] == a then [b] + s[1..]
    else [s[0]] + ReplaceFirst(s[1..], a, b)
  }

  /** How many times `c` occurs in `s`. */
  function Count(s: string, c: char): nat {
    if s == [] then 0 else (if s[0] == c then 1 else 0) + Count(s[1..], c)
  }

  lemma {:induction false} CountConcat(a: string, b: string, c: char)
    ensures Count(a + b, c) == Count(a, c) + Count(b, c)
  {
    if a == [] {
      assert a + b == b;
    } else {
      assert (a + b)[0] == a[0] && (a + b)[1..] == a[1..] + b;
      CountConcat(a[1..], b, c);
    }
  }

  lemma {:induction false} CountDigits(s: string, c: char)
    requires AllDigits(s) && !IsDigit(c)
    ensures Count(s, c) == 0
  {
    if s != [] {
      CountDigits(s[1..], c);
    }
  }

  /** Leading zeros do not change the number a string of digits denotes. */
  lemma {:induction false} LeadingZeros(k: nat, s: string)
    requires AllDigits(s)
    ensures AllDigits(Repeat('0', k) + s)
    ensures DigitsValue(Repeat('0', k) + s) == DigitsValue(s)
    decreases |s|, k
  {
    var z := Repeat('0', k);
    if s == [] {
      assert z + s == z;
      if k > 0 {
        assert z[..k - 1] == Repeat('0', k - 1);
        LeadingZeros(k - 1, s);
        assert Repeat('0', k - 1) + s == Repeat('0', k - 1);
        DigitRoundTrip(0);
      }
    } else {
      var t := z + s;
      assert t[..|t| - 1] == z + s[..|s| - 1];
      LeadingZeros(k, s[..|s| - 1]);
    }
  }

  /** Zero-padding a number's digits keeps its value. */
  lemma PadStartValue(n: nat, len: nat)
    ensures AllDigits(PadStart(NatDigits(n), len, '0'))
    ensures DigitsValue(PadStart(NatDigits(n), len, '0')) == n
  {
    DigitsRoundTrip(n);
    if |NatDigits(n)| < len {
      LeadingZeros(len - |NatDigits(n)|, NatDigits(n));
    }
  }

  /** The value of a string of two digits. */
  lemma TwoDigitString(s: string)
    requires |s| == 2 && AllDigits(s)
    ensures DigitsValue(s) == 10 * DigitValue(s[0]) + DigitValue(s[1])
  {
    assert s[..1][..0] == [];
    assert DigitsValue(s[..1]) == DigitValue(s[0]);
  }

  /** The last two digits of a number of at least two digits denote it modulo 100. */
  lemma LastTwoDigits(n: nat)
    requires n >= 10
    ensures |NatDigits(n)| >= 2
    ensures DigitsValue(NatDigits(n)[|NatDigits(n)| - 2..]) == n % 100
  {
    var h := NatDigits(n / 10);
    assert NatDigits(n) == h + [DigitChar(n % 10)];
    TailTwo(h, DigitChar(n % 10));
    NatDigitsLast(n / 10);
    DigitRoundTrip((n / 10) % 10);
    DigitRoundTrip(n % 10);
    ModHundred(n);
  }

  /** The value of the last two digits of `h` followed by `c`. */
  lemma TailTwo(h: string, c: char)
    requires h != [] && AllDigits(h) && IsDigit(c)
    ensures var d := h + [c];
      AllDigits(d) && DigitsValue(d[|d| - 2..]) == 10 * DigitValue(h[|h| - 1]) + DigitValue(c)
  {
    var d := h + [c];
    var t := d[|d| - 2..];
    assert t == [h[|h| - 1], c];
    TwoDigitString(t);
  }

  /** The last digit written is the number's last decimal digit. */
  lemma NatDigitsLast(m: nat)
    ensures NatDigits(m)[|NatDigits(m)| - 1] == DigitChar(m % 10)
  {
  }

  /** The remainder by 100 is made of the last two decimal digits. */
  lemma ModHundred(n: nat)
    ensures n % 100 == 10 * ((n / 10) % 10) + n % 10
  {
    var q := n / 10;
    var t, u := q % 10, n % 10;
    assert n == 10 * q + u;
    assert q == 10 * (q / 10) + t;
    ModHundredUnique(n, q / 10, 10 * t + u);
  }

  lemma ModHundredUnique(n: int, k: int, m: int)
    requires n == k * 100 + m && 0 <= m < 100
    ensures n % 100 == m
  {
  }


  /** A trimmed string is empty or starts and ends with something other than white space. */
  lemma TrimmedEnds(s: string)
    ensures var t := Trim(s); t == [] || (!IsWhite(t[0]) && !IsWhite(t[|t| - 1]))
  {
    var a := TrimStart(s);
    TrimStartHead(s);
    TrimEndLast(a);
    var t := TrimEnd(a);
    if t != [] {
      assert t[0] == a[0];
    }
  }

  lemma {:induction false} TrimStartHead(s: string)
    ensures TrimStart(s) == [] || !IsWhite(TrimStart(s)[0])
  {
    if s != [] && IsWhite(s[0]) {
      TrimStartHead(s[1..]);
    }
  }

  lemma {:induction false} TrimEndLast(s: string)
    ensures TrimEnd(s) == [] || !IsWhite(TrimEnd(s)[|TrimEnd(s)| - 1])
  {
    if s != [] && IsWhite(s[|s| - 1]) {
      TrimEndLast(s[..|s| - 1]);
    }
  }

  /** `trim` is idempotent. */
  lemma TrimIdempotent(s: string)
    ensures Trim(Trim(s)) == Trim(s)
  {
    TrimmedEnds(s);
    if Trim(s) != [] {
      TrimNoop(Trim(s));
    }
  }

  /** Replacing a character the string does not start with keeps its first character. */
  lemma ReplaceFirstHead(s: string, a: char, b: char)
    requires s != [] && s[0] != a
    ensures ReplaceFirst(s, a, b) != [] && ReplaceFirst(s, a, b)[0] == s[0]
  {
  }

  /** `s.replace(/c/g, "")`: every `c` removed. */
  function RemoveAll(s: string, c: char): (r: string)
    ensures c !in r
    ensures |r| <= |s|
  {
    if s == [] then [] else (if s[0] == c then [] else [s[0]]) + RemoveAll(s[1..], c)
  }

  lemma {:induction false} RemoveAllConcat(a: string, b: string, c: char)
    ensures RemoveAll(a + b, c) == RemoveAll(a, c) + RemoveAll(b, c)
  {
    if a == [] {
      assert a + b == b;
    } else {
      assert (a + b)[0] == a[0] && (a + b)[1..] == a[1..] + b;
      RemoveAllConcat(a[1..], b, c);
    }
  }

  /** Removing a character that does not occur changes nothing. */
  lemma {:induction false} RemoveAllAbsent(s: string, c: char)
    requires c !in s
    ensures RemoveAll(s, c) == s
  {
    if s != [] {
      assert s[0] != c && c !in s[1..];
      RemoveAllAbsent(s[1..], c);
    }
  }

  /** Removing a non-digit from a string of digits changes nothing. */
  lemma {:induction false} RemoveAllDigits(d: string)
    requires AllDigits(d)
    ensures RemoveAll(d, ',') == d
  {
    if d != [] {
      RemoveAllDigits(d[1..]);
    }
  }
}
