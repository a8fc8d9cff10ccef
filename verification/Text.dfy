/** Decimal printing (Go's %d and %0nd) and cutting text at a separator. */
module Text {

  predicate IsDigit(c: char) { '0' <= c <= '9' }

  predicate AllDigits(s: string) { forall i :: 0 <= i < |s| ==> IsDigit(s[i]) }

  function DigitChar(d: nat): char
    requires d < 10
  {
    '0' + d as char
  }

  /** %d of a natural number */
  function Digits(n: nat): (s: string)
    ensures |s| > 0 && AllDigits(s)
  {
    if n < 10 then [DigitChar(n)] else Digits(n / 10) + [DigitChar(n % 10)]
  }

  /** %d of an integer */
  function Decimal(n: int): string {
    if n < 0 then "-" + Digits(-n) else Digits(n)
  }

  /** The number a run of digits stands for; leading zeros are allowed. */
  function ValueOf(s: string): nat
    requires AllDigits(s)
  {
    if s == [] then 0 else 10 * ValueOf(s[..|s| - 1]) + (s[|s| - 1] - '0') as nat
  }

  lemma {:induction false} ValueOfDigits(n: nat)
    ensures ValueOf(Digits(n)) == n
  {
    if n >= 10 {
      ValueOfDigits(n / 10);
      assert Digits(n)[..|Digits(n)| - 1] == Digits(n / 10);
    }
  }

  /** Reading a %d back. */
  function Undecimal(s: string): int {
    if s != [] && s[0] == '-' && AllDigits(s[1..]) then (var value: int := ValueOf(s[1..]); -value)
    else if AllDigits(s) then ValueOf(s)
    else 0
  }

  lemma UndecimalOf(n: int)
    ensures Undecimal(Decimal(n)) == n
  {
    var digits := Digits(if n < 0 then -n else n);
    assert ("-" + digits)[1..] == digits;
    assert IsDigit(digits[0]);
    ValueOfDigits(if n < 0 then -n else n);
  }

  lemma DecimalInjective(m: int, n: int)
    requires Decimal(m) == Decimal(n)
    ensures m == n
  {
    UndecimalOf(m);
    UndecimalOf(n);
  }

  /** Zero padding on the left to `width` characters, as %0nd does for a natural number. */
  function Padded(n: nat, width: nat): string { Zeros(width, |Digits(n)|) + Digits(n) }

  /** %02d of a number that is never negative where it is used. */
  function Two(n: int): string { Padded(if n < 0 then 0 else n, 2) }

  function Zeros(width: nat, used: nat): (s: string)
    ensures AllDigits(s)
    ensures |s| == if used < width then width - used else 0
    ensures forall i :: 0 <= i < |s| ==> s[i] == '0'
  {
    if used < width then seq(width - used, _ => '0') else ""
  }

  lemma {:induction false} ValueOfZeros(zeros: string, s: string)
    requires AllDigits(s) && forall i :: 0 <= i < |zeros| ==> zeros[i] == '0'
    ensures AllDigits(zeros + s) && ValueOf(zeros + s) == ValueOf(s)
    decreases |s|, |zeros|
  {
    if s == [] {
      if zeros != [] {
        ValueOfZeros(zeros[..|zeros| - 1], s);
        assert (zeros + s)[..|zeros| - 1] == zeros[..|zeros| - 1] + s;
      }
    } else {
      ValueOfZeros(zeros, s[..|s| - 1]);
      assert (zeros + s)[..|zeros + s| - 1] == zeros + s[..|s| - 1];
    }
  }

  lemma ValueOfPadded(n: nat, width: nat)
    ensures AllDigits(Padded(n, width)) && ValueOf(Padded(n, width)) == n
  {
    ValueOfZeros(Zeros(width, |Digits(n)|), Digits(n));
    ValueOfDigits(n);
  }

  lemma {:induction false} DigitsLength(n: nat)
    ensures n < 10 ==> |Digits(n)| == 1
    ensures n < 100 ==> |Digits(n)| <= 2
    ensures n < 10000 ==> |Digits(n)| <= 4
  {
    if n >= 10 { DigitsLength(n / 10); if n >= 100 { DigitsLength(n / 100); assert n / 10 / 10 == n / 100; } }
  }

  lemma PaddedLength(n: nat, width: nat)
    requires (width == 2 && n < 100) || (width == 4 && n < 10000)
    ensures |Padded(n, width)| == width
  {
    DigitsLength(n);
  }

  /** Where `c` first occurs, or the length if it does not. */
  function IndexOf(s: string, c: char): nat {
    if s == [] || s[0] == c then 0 else 1 + IndexOf(s[1..], c)
  }

  lemma {:induction false} IndexOfSeparator(a: string, c: char, x: string)
    requires c !in a
    ensures IndexOf(a + [c] + x, c) == |a|
  {
    if a != [] {
      assert (a + [c] + x)[1..] == a[1..] + [c] + x;
      IndexOfSeparator(a[1..], c, x);
    }
  }

  /** Text is cut at the first separator in one way only. */
  lemma SplitAtSeparator(a: string, x: string, b: string, y: string, separator: char)
    requires separator !in a && separator !in b
    requires a + [separator] + x == b + [separator] + y
    ensures a == b && x == y
  {
    var s := a + [separator] + x;
    IndexOfSeparator(a, separator, x);
    IndexOfSeparator(b, separator, y);
    assert a == s[..|a|] && b == s[..|b|];
    assert x == s[|a| + 1..] && y == s[|b| + 1..];
  }

  function Reversed(s: string): string { if s == [] then [] else Reversed(s[1..]) + [s[0]] }

  lemma {:induction false} ReversedConcat(a: string, b: string)
    ensures Reversed(a + b) == Reversed(b) + Reversed(a)
  {
    if a == [] {
      assert a + b == b;
    } else {
      assert (a + b)[1..] == a[1..] + b;
      ReversedConcat(a[1..], b);
    }
  }

  lemma {:induction false} ReversedTwice(s: string)
    ensures Reversed(Reversed(s)) == s
    ensures forall c :: c in Reversed(s) ==> c in s
  {
    if s != [] {
      ReversedTwice(s[1..]);
      ReversedConcat(Reversed(s[1..]), [s[0]]);
    }
  }

  lemma ReadBackwards(a: string, separator: char, x: string)
    ensures Reversed(a + [separator] + x) == Reversed(x) + [separator] + Reversed(a)
  {
    ReversedConcat(a + [separator], x);
    ReversedConcat(a, [separator]);
    assert Reversed([separator]) == [separator];
    assert Reversed(x) + ([separator] + Reversed(a)) == Reversed(x) + [separator] + Reversed(a);
  }

  /** Text is cut at the last separator in one way only. */
  lemma SplitAtLastSeparator(a: string, x: string, b: string, y: string, separator: char)
    requires separator !in x && separator !in y
    requires a + [separator] + x == b + [separator] + y
    ensures a == b && x == y
  {
    hide Reversed;
    ReversedTwice(a); ReversedTwice(x); ReversedTwice(b); ReversedTwice(y);
    ReadBackwards(a, separator, x);
    ReadBackwards(b, separator, y);
    SplitAtSeparator(Reversed(x), Reversed(a), Reversed(y), Reversed(b), separator);
  }

  lemma DigitsHaveNo(s: string, c: char)
    requires AllDigits(s) && !IsDigit(c)
    ensures c !in s
  {
  }

  /** The longest run of digits at the front. */
  function DigitPrefix(s: string): (n: nat)
    ensures n <= |s| && AllDigits(s[..n]) && (n < |s| ==> !IsDigit(s[n]))
  {
    if s == [] || !IsDigit(s[0]) then 0 else 1 + DigitPrefix(s[1..])
  }

  lemma {:induction false} DigitPrefixOf(digits: string, rest: string)
    requires AllDigits(digits) && (rest == [] || !IsDigit(rest[0]))
    ensures DigitPrefix(digits + rest) == |digits|
  {
    if digits == [] {
      assert digits + rest == rest;
    } else {
      assert (digits + rest)[1..] == digits[1..] + rest;
      DigitPrefixOf(digits[1..], rest);
    }
  }
}
