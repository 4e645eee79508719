/** String helpers shared by every form and page: JavaScript-style trimming,
    ASCII case mapping, decimal digits, and the code-unit ordering that the
    `<`, `<=`, `>`, `>=` operators use on JavaScript strings. */
module Text {

  datatype Option<T> = None | Some(value: T)

  /** The characters that `String.prototype.trim` and the regular-expression
      class `\s` treat as white space (the Unicode white space and line
      terminator characters of the basic multilingual plane). */
  predicate IsSpace(c: char)
  {
    c == ' ' || c == '\t' || c == '\n' || c == '\r' || c == '\U{0B}' || c == '\U{0C}' ||
    c == '\U{A0}' || c == '\U{1680}' || ('\U{2000}' <= c <= '\U{200A}') ||
    c == '\U{2028}' || c == '\U{2029}' || c == '\U{202F}' || c == '\U{205F}' ||
    c == '\U{3000}' || c == '\U{FEFF}'
  }

  predicate AllSpace(s: string)
  {
    forall i :: 0 <= i < |s| ==> IsSpace(s[i])
  }

  /** Number of white-space characters at the start of `s`. */
  function LeadingSpace(s: string): (n: nat)
    ensures n <= |s|
    ensures AllSpace(s[..n])
    ensures n < |s| ==> !IsSpace(s[n])
  {
    if |s| > 0 && IsSpace(s[0]) then
      var k := LeadingSpace(s[1..]);
      assert s[1..][..k] == s[1..k + 1];
      1 + k
    else 0
  }

  /** Number of white-space characters at the end of `s`. */
  function TrailingSpace(s: string): (n: nat)
    ensures n <= |s|
    ensures AllSpace(s[|s| - n..])
    ensures n < |s| ==> !IsSpace(s[|s| - n - 1])
  {
    if |s| > 0 && IsSpace(s[|s| - 1]) then
      var k := TrailingSpace(s[..|s| - 1]);
      assert s[..|s| - 1][|s| - 1 - k..] == s[|s| - 1 - k..|s| - 1];
      1 + k
    else 0
  }

  /** `s.trim()`: `s` without its leading and trailing white space. */
  function Trim(s: string): (r: string)
    ensures |r| <= |s|
    ensures r != [] ==> !IsSpace(r[0]) && !IsSpace(r[|r| - 1])
    ensures AllSpace(s) <==> r == []
  {
    var a := LeadingSpace(s);
    var t := s[a..];
    if a == |s| then
      assert s[..a] == s;
      []
    else
      var b := TrailingSpace(t);
      assert !IsSpace(t[0]);
      assert !AllSpace(s) by { assert !IsSpace(s[a]); }
      t[..|t| - b]
  }

  /** A non-empty trimmed string starts and ends with a character that is
      not white space. */
  lemma TrimEnds(s: string)
    requires Trim(s) != []
    ensures !IsSpace(Trim(s)[0]) && !IsSpace(Trim(s)[|Trim(s)| - 1])
  {
  }

  /** What trimming removes is white space at both ends, and nothing else. */
  lemma TrimSlice(s: string)
    ensures LeadingSpace(s) + |Trim(s)| <= |s|
    ensures Trim(s) == s[LeadingSpace(s)..LeadingSpace(s) + |Trim(s)|]
    ensures AllSpace(s[..LeadingSpace(s)]) && AllSpace(s[LeadingSpace(s) + |Trim(s)|..])
  {
    var a := LeadingSpace(s);
    if a < |s| {
      TrimSliceInner(s);
    } else {
      assert Trim(s) == [];
      assert AllSpace(s[a..]) by { assert s[a..] == []; }
    }
  }

  /** `TrimSlice` for a string that is not all white space. */
  lemma TrimSliceInner(s: string)
    requires LeadingSpace(s) < |s|
    ensures LeadingSpace(s) + |Trim(s)| <= |s|
    ensures Trim(s) == s[LeadingSpace(s)..LeadingSpace(s) + |Trim(s)|]
    ensures AllSpace(s[LeadingSpace(s) + |Trim(s)|..])
  {
    var a := LeadingSpace(s);
    var t := s[a..];
    var b := TrailingSpace(t);
    var r := t[..|t| - b];
    assert Trim(s) == r;
    assert r == s[a..a + |r|];
    assert s[a + |r|..] == t[|t| - b..];
  }

  /** A string that neither starts nor ends with white space is its own
      trim. */
  lemma TrimUnpadded(s: string)
    requires s != [] && !IsSpace(s[0]) && !IsSpace(s[|s| - 1])
    ensures Trim(s) == s
  {
    assert LeadingSpace(s) == 0 && s[0..] == s;
    assert TrailingSpace(s) == 0;
  }

  /** JavaScript's `!s.trim()`: the text is empty or white space only. */
  predicate IsBlank(s: string)
  {
    Trim(s) == []
  }

  lemma {:induction false} TrimIdempotent(s: string)
    ensures Trim(Trim(s)) == Trim(s)
  {
    var r := Trim(s);
    if r != [] {
      assert !IsSpace(r[0]);
      assert LeadingSpace(r) == 0;
      assert TrailingSpace(r) == 0;
      assert r[0..] == r;
    }
  }

  function ToLowerChar(c: char): char
  {
    if 'A' <= c <= 'Z' then (c as int + 32) as char else c
  }

  function ToUpperChar(c: char): char
  {
    if 'a' <= c <= 'z' then (c as int - 32) as char else c
  }

  /** `s.toLowerCase()` on ASCII letters. */
  function ToLower(s: string): (r: string)
    ensures |r| == |s|
    ensures forall i :: 0 <= i < |s| ==> r[i] == ToLowerChar(s[i])
  {
    if s == [] then [] else [ToLowerChar(s[0])] + ToLower(s[1..])
  }

  predicate IsDigit(c: char)
  {
    '0' <= c <= '9'
  }

  predicate AllDigits(s: string)
  {
    forall i :: 0 <= i < |s| ==> IsDigit(s[i])
  }

  function DigitChar(n: nat): (c: char)
    requires n < 10
    ensures IsDigit(c)
  {
    ('0' as int + n) as char
  }

  function DigitValue(c: char): nat
    requires IsDigit(c)
  {
    c as int - '0' as int
  }

  /** The number a string of decimal digits denotes. */
  function DigitsValue(s: string): nat
    requires AllDigits(s)
  {
    if s == [] then 0 else 10 * DigitsValue(s[..|s| - 1]) + DigitValue(s[|s| - 1])
  }

  function Pow10(k: nat): (p: nat)
    ensures p >= 1
  {
    if k == 0 then 1 else 10 * Pow10(k - 1)
  }

  /** `String(n)` for a natural number: decimal digits, no leading zero. */
  function NatToString(n: nat): (r: string)
    ensures |r| >= 1 && AllDigits(r)
    ensures DigitsValue(r) == n
    ensures |r| > 1 ==> r[0] != '0'
  {
    if n < 10 then [DigitChar(n)]
    else
      var p := NatToString(n / 10);
      var r := p + [DigitChar(n % 10)];
      assert r[..|r| - 1] == p;
      r
  }

  /** `String(n)` for an integer. */
  function IntToString(n: int): string
  {
    if n < 0 then "-" + NatToString(-n) else NatToString(n)
  }

  /** The last `k` decimal digits of `n`, zero-padded to exactly `k` characters. */
  function FixedDigits(n: nat, k: nat): (r: string)
    ensures |r| == k && AllDigits(r)
    ensures n < Pow10(k) ==> DigitsValue(r) == n
  {
    if k == 0 then []
    else
      var p := FixedDigits(n / 10, k - 1);
      var r := p + [DigitChar(n % 10)];
      assert r[..|r| - 1] == p;
      r
  }

  /** `String(n).padStart(2, '0')`. */
  function Pad2(n: nat): string
  {
    if n < 10 then "0" + NatToString(n) else NatToString(n)
  }

  lemma {:induction false} NatToStringFixed(n: nat, k: nat)
    requires k >= 1 && Pow10(k - 1) <= n < Pow10(k)
    ensures NatToString(n) == FixedDigits(n, k)
  {
    if k > 1 {
      assert Pow10(k - 1) == 10 * Pow10(k - 2);
      assert n >= 10;
      assert Pow10(k - 2) <= n / 10 < Pow10(k - 1);
      NatToStringFixed(n / 10, k - 1);
    }
  }

  lemma Pad2Fixed(n: nat)
    requires 1 <= n < 100
    ensures Pad2(n) == FixedDigits(n, 2)
  {
    if n < 10 {
      NatToStringFixed(n, 1);
      assert Pad2(n) == [DigitChar(0)] + [DigitChar(n)];
    } else {
      NatToStringFixed(n, 2);
    }
  }

  // ---------------------------------------------------------------------
  // JavaScript string comparison (code-unit lexicographic order)
  // ---------------------------------------------------------------------

  /** `a < b` on JavaScript strings: the first differing character decides;
      a proper prefix is smaller. */
  predicate StrLess(a: string, b: string)
    decreases |a|
  {
    if a == [] then b != []
    else if b == [] then false
    else if a[0] != b[0] then a[0] < b[0]
    else StrLess(a[1..], b[1..])
  }

  /** `a <= b` on JavaScript strings. */
  predicate StrLessEq(a: string, b: string)
  {
    StrLess(a, b) || a == b
  }

  lemma {:induction false} StrLessIrreflexive(a: string)
    ensures !StrLess(a, a)
  {
    if a != [] { StrLessIrreflexive(a[1..]); }
  }

  lemma {:induction false} StrLessTrichotomy(a: string, b: string)
    ensures StrLess(a, b) || a == b || StrLess(b, a)
    ensures !(StrLess(a, b) && StrLess(b, a))
  {
    if a != [] && b != [] && a[0] == b[0] {
      StrLessTrichotomy(a[1..], b[1..]);
      if a[1..] == b[1..] {
        assert a == [a[0]] + a[1..] && b == [b[0]] + b[1..];
      }
    }
  }

  lemma {:induction false} StrLessTransitive(a: string, b: string, c: string)
    requires StrLess(a, b) && StrLess(b, c)
    ensures StrLess(a, c)
  {
    if a != [] && a[0] == b[0] && b[0] == c[0] {
      StrLessTransitive(a[1..], b[1..], c[1..]);
    }
  }

  /** Comparing two concatenations whose first parts have the same length:
      the first parts decide unless they are equal. */
  lemma {:induction false} StrLessConcat(a1: string, b1: string, a2: string, b2: string)
    requires |a1| == |a2|
    ensures StrLess(a1 + b1, a2 + b2) <==> (StrLess(a1, a2) || (a1 == a2 && StrLess(b1, b2)))
  {
    if a1 != [] {
      assert (a1 + b1)[0] == a1[0] && (a2 + b2)[0] == a2[0];
      assert (a1 + b1)[1..] == a1[1..] + b1;
      assert (a2 + b2)[1..] == a2[1..] + b2;
      StrLessConcat(a1[1..], b1, a2[1..], b2);
      if a1[0] == a2[0] && a1[1..] == a2[1..] {
        assert a1 == [a1[0]] + a1[1..] && a2 == [a2[0]] + a2[1..];
      }
    } else {
      assert a1 + b1 == b1 && a2 + b2 == b2;
    }
  }

  /** Zero-padded fixed-width digit strings compare like the numbers they denote. */
  lemma {:induction false} FixedDigitsOrder(n: nat, m: nat, k: nat)
    requires n < Pow10(k) && m < Pow10(k)
    ensures StrLess(FixedDigits(n, k), FixedDigits(m, k)) <==> n < m
    ensures FixedDigits(n, k) == FixedDigits(m, k) <==> n == m
  {
    if k == 0 {
    } else {
      var hn, hm := FixedDigits(n / 10, k - 1), FixedDigits(m / 10, k - 1);
      var tn, tm := [DigitChar(n % 10)], [DigitChar(m % 10)];
      assert FixedDigits(n, k) == hn + tn && FixedDigits(m, k) == hm + tm;
      assert n / 10 < Pow10(k - 1) && m / 10 < Pow10(k - 1) by {
        assert Pow10(k) == 10 * Pow10(k - 1);
      }
      FixedDigitsOrder(n / 10, m / 10, k - 1);
      assert StrLess(hn + tn, hm + tm) <==> StrLess(hn, hm) || (hn == hm && StrLess(tn, tm)) by {
        StrLessConcat(hn, tn, hm, tm);
      }
      assert StrLess(tn, tm) <==> n % 10 < m % 10 by {
        assert tn[1..] == [] && tm[1..] == [];
      }
      assert tn == tm <==> n % 10 == m % 10 by {
        assert tn[0] == DigitChar(n % 10) && tm[0] == DigitChar(m % 10);
      }
      assert hn + tn == hm + tm <==> hn == hm && tn == tm by {
        ConcatEq(hn, tn, hm, tm);
      }
      LastDigitSplit(n, m);
    }
  }

  lemma LastDigitSplit(n: nat, m: nat)
    ensures n < m <==> (n / 10 < m / 10 || (n / 10 == m / 10 && n % 10 < m % 10))
    ensures n == m <==> (n / 10 == m / 10 && n % 10 == m % 10)
  {
  }

  /** `parts.join(sep)`. */
  function Join(parts: seq<string>, sep: string): string
  {
    if parts == [] then ""
    else if |parts| == 1 then parts[0]
    else parts[0] + sep + Join(parts[1..], sep)
  }

  /** Number of occurrences of `c` in `s`. */
  function Count(s: string, c: char): nat
  {
    if s == [] then 0 else (if s[0] == c then 1 else 0) + Count(s[1..], c)
  }

  /** Every digit string is the zero-padded rendering of the number it denotes. */
  lemma {:induction false} FixedDigitsOfDigits(t: string)
    requires AllDigits(t)
    ensures FixedDigits(DigitsValue(t), |t|) == t
  {
    if t != [] {
      var p := t[..|t| - 1];
      var v := DigitsValue(t);
      assert v / 10 == DigitsValue(p) && v % 10 == DigitValue(t[|t| - 1]);
      FixedDigitsOfDigits(p);
      assert t == p + [t[|t| - 1]];
    }
  }

  /** A string of `k` digits denotes a number below 10^k. */
  lemma {:induction false} DigitsValueBound(t: string)
    requires AllDigits(t)
    ensures DigitsValue(t) < Pow10(|t|)
  {
    if t != [] {
      DigitsValueBound(t[..|t| - 1]);
    }
  }

  /** `String(n)` of a number below 10^k has at most `k` characters. */
  lemma {:induction false} NatToStringLength(n: nat, k: nat)
    requires 1 <= k && n < Pow10(k)
    ensures |NatToString(n)| <= k
  {
    if n >= 10 {
      assert k >= 2 && n / 10 < Pow10(k - 1);
      NatToStringLength(n / 10, k - 1);
    }
  }

  // ---------------------------------------------------------------------
  // parseFloat
  // ---------------------------------------------------------------------

  /** Number of decimal digits at the start of `s`. */
  function DigitRun(s: string): (n: nat)
    ensures n <= |s| && AllDigits(s[..n])
    ensures n < |s| ==> !IsDigit(s[n])
  {
    if |s| > 0 && IsDigit(s[0]) then
      var k := DigitRun(s[1..]);
      assert s[1..][..k] == s[1..k + 1];
      1 + k
    else 0
  }

  /** y / 10^k, one division by ten at a time. */
  function DivPow10(y: real, k: nat): (r: real)
    ensures y >= 0.0 ==> r >= 0.0
  {
    if k == 0 then y else DivPow10(y, k - 1) / 10.0
  }

  /** y * 10^k, one multiplication by ten at a time. */
  function MulPow10(y: real, k: nat): (r: real)
    ensures y >= 0.0 ==> r >= 0.0
  {
    if k == 0 then y else MulPow10(y, k - 1) * 10.0
  }

  lemma {:induction false} DivPow10Add(a: real, b: real, k: nat)
    ensures DivPow10(a + b, k) == DivPow10(a, k) + DivPow10(b, k)
  {
    if k > 0 { DivPow10Add(a, b, k - 1); }
  }

  lemma {:induction false} DivPow10Monotone(a: real, b: real, k: nat)
    requires a <= b
    ensures DivPow10(a, k) <= DivPow10(b, k)
  {
    if k > 0 { DivPow10Monotone(a, b, k - 1); }
  }

  lemma {:induction false} DivMulPow10(y: real, k: nat)
    ensures DivPow10(MulPow10(y, k), k) == y
  {
    if k > 0 {
      DivPow10Scale(MulPow10(y, k - 1), k - 1);
      DivMulPow10(y, k - 1);
    }
  }

  /** Dividing ten times a value by 10^(k+1) is dividing the value by 10^k. */
  lemma {:induction false} DivPow10Scale(y: real, k: nat)
    ensures DivPow10(y * 10.0, k + 1) == DivPow10(y, k)
  {
    if k > 0 {
      DivPow10Scale(y, k - 1);
    }
  }

  /** A whole multiple of 10^k divided by 10^k is the multiplier. */
  lemma {:induction false} DivPow10Whole(q: nat, k: nat)
    ensures DivPow10((q * Pow10(k)) as real, k) == q as real
    decreases k
  {
    if k > 0 {
      assert q * Pow10(k) == (q * 10) * Pow10(k - 1);
      DivPow10Whole(q * 10, k - 1);
    }
  }

  /** The value of an unsigned decimal `digits[.digits]` literal, read one
      fraction digit at a time: moving the first fraction digit in front of
      the point multiplies the value by ten. */
  function DecimalValue(intPart: string, frac: string): (v: real)
    requires AllDigits(intPart) && AllDigits(frac)
    ensures v >= 0.0
    decreases |frac|
  {
    if frac == [] then DigitsValue(intPart) as real
    else
      assert AllDigits(intPart + frac[..1]);
      DecimalValue(intPart + frac[..1], frac[1..]) / 10.0
  }

  /** Appending digits shifts the value of the first part left. */
  lemma {:induction false} DigitsValueAppend(a: string, b: string)
    requires AllDigits(a) && AllDigits(b)
    ensures AllDigits(a + b)
    ensures DigitsValue(a + b) == DigitsValue(a) * Pow10(|b|) + DigitsValue(b)
    decreases |b|
  {
    if b == [] {
      assert a + b == a;
    } else {
      var init := b[..|b| - 1];
      assert (a + b)[..|a + b| - 1] == a + init;
      assert (a + b)[|a + b| - 1] == b[|b| - 1];
      DigitsValueAppend(a, init);
      assert DigitsValue(a) * Pow10(|b|) == 10 * (DigitsValue(a) * Pow10(|init|));
    }
  }

  /** A decimal literal is its digits, point removed, over a power of ten. */
  lemma {:induction false} DecimalValueShift(a: string, b: string)
    requires AllDigits(a) && AllDigits(b)
    ensures AllDigits(a + b)
    ensures DecimalValue(a, b) == DivPow10(DigitsValue(a + b) as real, |b|)
    decreases |b|
  {
    if b == [] {
      assert a + b == a;
    } else {
      assert (a + b[..1]) + b[1..] == a + b;
      DecimalValueShift(a + b[..1], b[1..]);
    }
  }

  /** A decimal literal is its whole part plus its fraction digits scaled
      down by their count. */
  lemma DecimalValueSplit(a: string, b: string)
    requires AllDigits(a) && AllDigits(b)
    ensures DecimalValue(a, b) == DigitsValue(a) as real + DivPow10(DigitsValue(b) as real, |b|)
  {
    DecimalValueShift(a, b);
    DigitsValueAppend(a, b);
    var w := DigitsValue(a) * Pow10(|b|);
    assert DigitsValue(a + b) as real == w as real + DigitsValue(b) as real;
    DivPow10Add(w as real, DigitsValue(b) as real, |b|);
    DivPow10Whole(DigitsValue(a), |b|);
  }

  /** The longest prefix of `u` of the form `digits[.digits]` or `.digits`,
      read as a number; `None` when that prefix holds no digit. */
  function ParseUnsigned(u: string): (r: Option<real>)
    ensures r.Some? ==> r.value >= 0.0
  {
    var i := DigitRun(u);
    var rest := u[i..];
    var j := if |rest| > 0 && rest[0] == '.' then DigitRun(rest[1..]) else 0;
    var frac := if |rest| > 0 && rest[0] == '.' then rest[1..][..j] else "";
    if i == 0 && j == 0 then None
    else Some(DecimalValue(u[..i], frac))
  }

  /** `parseFloat(s)`: leading white space is skipped, then an optional sign
      and the unsigned decimal prefix; `None` stands for NaN. */
  function ParseFloat(s: string): (r: Option<real>)
  {
    var t := s[LeadingSpace(s)..];
    if |t| > 0 && t[0] == '-' then
      match ParseUnsigned(t[1..])
      case Some(v) => Some(-v)
      case None => None
    else if |t| > 0 && t[0] == '+' then ParseUnsigned(t[1..])
    else ParseUnsigned(t)
  }

  lemma Pow10Values()
    ensures Pow10(1) == 10 && Pow10(2) == 100 && Pow10(3) == 1000 && Pow10(4) == 10000
  {
  }

  /** Concatenations whose first parts have the same length are equal only
      part by part. */
  lemma ConcatEq(a1: string, b1: string, a2: string, b2: string)
    requires |a1| == |a2|
    ensures a1 + b1 == a2 + b2 <==> a1 == a2 && b1 == b2
  {
    if a1 + b1 == a2 + b2 {
      assert a1 == (a1 + b1)[..|a1|] && a2 == (a2 + b2)[..|a2|];
      assert b1 == (a1 + b1)[|a1|..] && b2 == (a2 + b2)[|a2|..];
    }
  }

  /** The digit run at the start of `a + rest` is exactly `a` when `rest` does
      not start with a digit. */
  lemma {:induction false} DigitRunOf(a: string, rest: string)
    requires AllDigits(a) && (rest == [] || !IsDigit(rest[0]))
    ensures DigitRun(a + rest) == |a|
  {
    if a != [] {
      assert (a + rest)[1..] == a[1..] + rest;
      DigitRunOf(a[1..], rest);
    } else {
      assert a + rest == rest;
    }
  }

  /** The unsigned parser reads a non-empty digit string, a `.digits` part,
      and stops at a tail that cannot continue the number. */
  lemma ParseUnsignedPoint(a: string, b: string, tail: string)
    requires |a| > 0 && AllDigits(a) && |b| > 0 && AllDigits(b)
    requires tail == [] || !IsDigit(tail[0])
    ensures ParseUnsigned(a + ("." + (b + tail))) == Some(DecimalValue(a, b))
  {
    var u := a + ("." + (b + tail));
    var rest := "." + (b + tail);
    DigitRunOf(a, rest);
    assert u[..|a|] == a && u[|a|..] == rest;
    assert rest[1..] == b + tail;
    DigitRunOf(b, tail);
    assert (b + tail)[..|b|] == b;
  }

  /** The unsigned parser reads a non-empty digit string and stops at a tail
      that cannot continue the number. */
  lemma ParseUnsignedWhole(a: string, tail: string)
    requires |a| > 0 && AllDigits(a)
    requires tail == [] || (!IsDigit(tail[0]) && tail[0] != '.')
    ensures ParseUnsigned(a + tail) == Some(DecimalValue(a, ""))
  {
    DigitRunOf(a, tail);
    assert (a + tail)[..|a|] == a && (a + tail)[|a|..] == tail;
  }

  /** `parseFloat` of a string starting with a digit is the unsigned parse,
      and a leading `-` negates it. */
  lemma ParseFloatSigned(u: string, v: real)
    requires |u| > 0 && IsDigit(u[0]) && ParseUnsigned(u) == Some(v)
    ensures ParseFloat(u) == Some(v)
    ensures ParseFloat("-" + u) == Some(-v)
  {
    assert LeadingSpace(u) == 0 && u[0..] == u;
    var s := "-" + u;
    assert s[0] == '-' && s[1..] == u;
    assert LeadingSpace(s) == 0 && s[0..] == s;
  }

  /** `parseFloat(String(n))` is `n` for every integer `n`. */
  lemma IntToStringReadsBack(n: int)
    ensures ParseFloat(IntToString(n)) == Some(n as real)
  {
    var m: nat := if n < 0 then -n else n;
    var d := NatToString(m);
    assert ParseUnsigned(d) == Some(m as real) by { NatToStringParses(m); }
    if n < 0 {
      assert IntToString(n) == "-" + d;
      assert ParseFloat("-" + d) == Some(-(m as real)) by { ParseFloatSigned(d, m as real); }
    } else {
      assert IntToString(n) == d;
      assert ParseFloat(d) == Some(m as real) by { ParseFloatSigned(d, m as real); }
    }
  }

  lemma NatToStringParses(m: nat)
    ensures ParseUnsigned(NatToString(m)) == Some(m as real)
  {
    var d := NatToString(m);
    assert d + "" == d;
    ParseUnsignedWhole(d, "");
    assert DecimalValue(d, "") == m as real;
  }
}
