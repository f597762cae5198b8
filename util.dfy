/** Shared helpers: an optional value, and the pieces of Python's
    str.format that the wrapper uses (decimal and lower-case hex rendering,
    zero fill, left and right justification with spaces). */
module Util {

  datatype Option<+T> = None | Some(value: T)

  /** A byte as ctypes hands it over (c_ubyte / c_char). */
  type byte = b: int | 0 <= b < 256

  /** The lower-case digit for `d`. */
  function DigitChar(d: nat): (c: char)
    requires d < 16
    ensures '0' <= c <= '9' || 'a' <= c <= 'f'
  {
    if d < 10 then ('0' as int + d) as char else ('a' as int + d - 10) as char
  }

  /** The value of a digit character in base `radix`, if it is one. */
  function DigitValue(c: char, radix: nat): (r: Option<nat>)
    requires radix == 10 || radix == 16
    ensures r.Some? ==> r.value < radix
  {
    if '0' <= c <= '9' then Some(c as int - '0' as int)
    else if radix == 16 && 'a' <= c <= 'f' then Some(c as int - 'a' as int + 10)
    else None
  }

  lemma DigitRoundTrip(d: nat, radix: nat)
    requires radix == 10 || radix == 16
    requires d < radix
    ensures DigitValue(DigitChar(d), radix) == Some(d)
  {
  }

  /** `n` written in base `radix` with no leading zeros ("0" for zero). */
  function Digits(n: nat, radix: nat): (s: string)
    requires radix == 10 || radix == 16
    ensures |s| >= 1
    ensures n > 0 ==> s[0] != '0'
    ensures forall i :: 0 <= i < |s| ==> DigitValue(s[i], radix).Some?
    decreases n
  {
    if n < radix then [DigitChar(n)]
    else Digits(n / radix, radix) + [DigitChar(n % radix)]
  }

  /** The value of a non-empty string of base-`radix` digits. */
  function DigitsValue(s: string, radix: nat): (r: Option<nat>)
    requires radix == 10 || radix == 16
    decreases |s|
  {
    if |s| == 0 then None
    else
      var last := DigitValue(s[|s| - 1], radix);
      if last.None? then None
      else if |s| == 1 then last
      else
        var front := DigitsValue(s[..|s| - 1], radix);
        if front.None? then None else Some(front.value * radix + last.value)
  }

  /** Reading back what Digits writes gives the number again. */
  lemma {:induction false} DigitsRoundTrip(n: nat, radix: nat)
    requires radix == 10 || radix == 16
    ensures DigitsValue(Digits(n, radix), radix) == Some(n)
    decreases n
  {
    var s := Digits(n, radix);
    if n < radix {
      DigitRoundTrip(n, radix);
      assert s == [DigitChar(n)];
    } else {
      var q, d := n / radix, n % radix;
      var front := Digits(q, radix);
      assert s == front + [DigitChar(d)];
      DigitRoundTrip(d, radix);
      DigitsRoundTrip(q, radix);
      assert s[..|s| - 1] == front;
      assert s[|s| - 1] == DigitChar(d);
      assert DigitsValue(s, radix) == Some(q * radix + d);
    }
  }

  /** Python's "{0:d}".format(n): an optional minus sign, then the digits. */
  function Decimal(n: int): (s: string)
    ensures |s| >= 1
    ensures n != 0 ==> s[0] != '0'
    ensures n < 0 <==> s[0] == '-'
    ensures n < 0 ==> |s| >= 2 && s[1] != '0'
  {
    if n < 0 then "-" + Digits(-n, 10) else Digits(n, 10)
  }

  /** The inverse of Decimal. */
  function DecimalValue(s: string): (r: Option<int>)
  {
    if |s| >= 2 && s[0] == '-' then
      match DigitsValue(s[1..], 10)
      case Some(v) => if v == 0 then None else Option<int>.Some(-(v as int))
      case None => None
    else
      match DigitsValue(s, 10)
      case Some(v) => Option<int>.Some(v)
      case None => None
  }

  lemma DecimalRoundTrip(n: int)
    ensures DecimalValue(Decimal(n)) == Some(n)
  {
    var s := Decimal(n);
    if n < 0 {
      var t := Digits(-n, 10);
      assert s == "-" + t;
      assert s[1..] == t;
      DigitsRoundTrip(-n, 10);
    } else {
      DigitsRoundTrip(n, 10);
    }
  }

  /** Decimal is one-to-one: distinct numbers print differently. */
  lemma DecimalInjective(m: int, n: int)
    requires Decimal(m) == Decimal(n)
    ensures m == n
  {
    DecimalRoundTrip(m);
    DecimalRoundTrip(n);
  }

  /** A decimal numeral holds only a minus sign and digits. */
  lemma DecimalChars(n: int)
    ensures forall c <- Decimal(n) :: c == '-' || '0' <= c <= '9'
  {
    if n < 0 {
      assert Decimal(n) == "-" + Digits(-n, 10);
    }
  }

  function Repeat(c: char, k: nat): (s: string)
    ensures |s| == k
    ensures forall i :: 0 <= i < k ==> s[i] == c
  {
    if k == 0 then [] else [c] + Repeat(c, k - 1)
  }

  /** Python's "{0:<w}": `s` padded on the right with spaces to width `w`. */
  function LeftJustify(s: string, w: nat): (r: string)
    ensures |r| == if |s| < w then w else |s|
    ensures r[..|s|] == s
    ensures forall i :: |s| <= i < |r| ==> r[i] == ' '
  {
    if |s| < w then s + Repeat(' ', w - |s|) else s
  }

  /** Python's "{0:>w}": `s` padded on the left with spaces to width `w`. */
  function RightJustify(s: string, w: nat): (r: string)
    ensures |r| == if |s| < w then w else |s|
    ensures r[|r| - |s|..] == s
    ensures forall i :: 0 <= i < |r| - |s| ==> r[i] == ' '
  {
    if |s| < w then Repeat(' ', w - |s|) + s else s
  }

  /** Python's "{0:0wx}" for a non-negative number: lower-case hex digits,
      zero-filled on the left to width `w`. */
  function HexZeroFill(n: nat, w: nat): (r: string)
    ensures |r| >= w && |r| >= 1
    ensures |r| == if |Digits(n, 16)| < w then w else |Digits(n, 16)|
  {
    var h := Digits(n, 16);
    if |h| < w then Repeat('0', w - |h|) + h else h
  }

  /** Python's "{0:0wx}" for any integer: a negative number is written
      with its sign first, and the sign counts towards the width. */
  function HexFormat(n: int, w: nat): (r: string)
    ensures |r| >= w && |r| >= 1
    ensures var need := |Digits(if n < 0 then -n else n, 16)| + (if n < 0 then 1 else 0);
      |r| == if need < w then w else need
    ensures n >= 0 ==> DigitsValue(r, 16) == Some(n)
    ensures n < 0 ==> r[0] == '-' && DigitsValue(r[1..], 16) == Some(-n)
  {
    if n >= 0 then
      HexZeroFillRoundTrip(n, w);
      HexZeroFill(n, w)
    else
      HexZeroFillRoundTrip(-n, if w == 0 then 0 else w - 1);
      var h := HexZeroFill(-n, if w == 0 then 0 else w - 1);
      assert ("-" + h)[1..] == h;
      "-" + h
  }

  /** Leading zeros do not change the value read back, so the zero-filled
      rendering still reads back as `n`. */
  lemma HexZeroFillRoundTrip(n: nat, w: nat)
    ensures DigitsValue(HexZeroFill(n, w), 16) == Some(n)
  {
    var h := Digits(n, 16);
    DigitsRoundTrip(n, 16);
    if |h| < w {
      LeadingZeros(w - |h|, h, 16);
    }
  }

  lemma {:induction false} LeadingZeros(k: nat, s: string, radix: nat)
    requires radix == 10 || radix == 16
    requires DigitsValue(s, radix).Some?
    ensures DigitsValue(Repeat('0', k) + s, radix) == DigitsValue(s, radix)
    decreases |s|
  {
    var t := Repeat('0', k) + s;
    if |s| > 1 {
      assert t[..|t| - 1] == Repeat('0', k) + s[..|s| - 1];
      LeadingZeros(k, s[..|s| - 1], radix);
    } else if k > 0 {
      assert t[..|t| - 1] == Repeat('0', k);
      ZerosValue(k, radix);
    }
  }

  lemma {:induction false} ZerosValue(k: nat, radix: nat)
    requires radix == 10 || radix == 16
    requires k >= 1
    ensures DigitsValue(Repeat('0', k), radix) == Some(0)
  {
    var z := Repeat('0', k);
    if k > 1 {
      assert z[..k - 1] == Repeat('0', k - 1);
      ZerosValue(k - 1, radix);
    }
  }

  /** The index of the first occurrence of `c` in `s`, if any. */
  function IndexOf(s: string, c: char): (r: Option<nat>)
    ensures r.Some? ==> r.value < |s| && s[r.value] == c
    ensures r.Some? ==> forall i :: 0 <= i < r.value ==> s[i] != c
    ensures r.None? <==> c !in s
  {
    if |s| == 0 then None
    else if s[0] == c then Some(0)
    else match IndexOf(s[1..], c)
      case Some(k) => Some(k + 1)
      case None => None
  }

  /** The index of the last occurrence of `c` in `s`, if any. */
  function LastIndexOf(s: string, c: char): (r: Option<nat>)
    ensures r.Some? ==> r.value < |s| && s[r.value] == c
    ensures r.Some? ==> forall i :: r.value < i < |s| ==> s[i] != c
    ensures r.None? <==> c !in s
  {
    if |s| == 0 then None
    else if s[|s| - 1] == c then Some(|s| - 1)
    else LastIndexOf(s[..|s| - 1], c)
  }

  /** Python's s.lstrip(" "). */
  function StripBlanks(s: string): (r: string)
    ensures |r| <= |s| && r == s[|s| - |r|..]
    ensures r == [] || r[0] != ' '
    ensures forall i :: 0 <= i < |s| - |r| ==> s[i] == ' '
  {
    if s != [] && s[0] == ' ' then StripBlanks(s[1..]) else s
  }

  function EndsWith(s: string, suffix: string): bool
  {
    |suffix| <= |s| && s[|s| - |suffix|..] == suffix
  }

  // ---------------------------------------------------------------------
  // Python's integer bit operations on non-negative integers

  function Pow2(n: nat): (p: nat)
    ensures p >= 1
  {
    if n == 0 then 1 else 2 * Pow2(n - 1)
  }

  /** Python's `|` on non-negative integers, bit by bit. */
  function BitOr(a: nat, b: nat): nat
    decreases a + b
  {
    if a == 0 then b
    else if b == 0 then a
    else 2 * BitOr(a / 2, b / 2) + (if a % 2 == 1 || b % 2 == 1 then 1 else 0)
  }

  /** `x << n` on non-negative integers. */
  function ShiftLeft(x: nat, n: nat): nat
    decreases n
  {
    if n == 0 then x else ShiftLeft(2 * x, n - 1)
  }

  lemma {:induction false} ShiftLeftIsProduct(x: nat, n: nat)
    ensures ShiftLeft(x, n) == x * Pow2(n)
    decreases n
  {
    if n > 0 {
      ShiftLeftIsProduct(2 * x, n - 1);
    }
  }

  lemma {:induction false} Pow2Monotone(m: nat, n: nat)
    requires m < n
    ensures Pow2(m) < Pow2(n)
    decreases n
  {
    if m < n - 1 {
      Pow2Monotone(m, n - 1);
    }
  }

  lemma {:induction false} BitOrCommutes(a: nat, b: nat)
    ensures BitOr(a, b) == BitOr(b, a)
    decreases a + b
  {
    if a != 0 && b != 0 {
      BitOrCommutes(a / 2, b / 2);
    }
  }

  /** Or-ing a bit above every bit of `x` adds it. */
  lemma {:induction false} BitOrHighBit(x: nat, k: nat)
    requires x < Pow2(k)
    ensures BitOr(x, Pow2(k)) == x + Pow2(k)
    decreases k
  {
    if x != 0 && k > 0 {
      assert Pow2(k) / 2 == Pow2(k - 1) && Pow2(k) % 2 == 0;
      BitOrHighBit(x / 2, k - 1);
    }
  }
}
