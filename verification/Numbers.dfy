/** Numbers as text: the number printer of the format routines and the parser
    that reads numbers back. Words are 64 bits wide. */
module Numbers {
  import opened Division
  import opened Modular

  /** The value of a digit, or -1. */
  function Digit(c: char): int
  {
    if '0' <= c <= '9' then c as int - '0' as int
    else if 'a' <= c <= 'z' then c as int - 'a' as int + 10
    else if 'A' <= c <= 'Z' then c as int - 'A' as int + 10
    else -1
  }

  predicate IsDigit(c: char, base: int)
  {
    0 <= Digit(c) < base
  }

  predicate AllDigits(t: string, base: int)
  {
    forall i :: 0 <= i < |t| ==> IsDigit(t[i], base)
  }

  predicate IsSpace(c: char)
  {
    c == ' ' || c == '\t' || c == '\n' || c == '\r' || c as int == 11 || c as int == 12
  }

  function Rep(c: char, n: nat): (r: string)
    ensures |r| == n && forall i :: 0 <= i < n ==> r[i] == c
  {
    if n == 0 then "" else Rep(c, n - 1) + [c]
  }

  function Max(x: int, y: int): int
  {
    if x < y then y else x
  }

  //////////////////// Digits and their value ////////////////////

  function DigitChar(d: nat): (c: char)
    requires d < 16
    ensures Digit(c) == d
  {
    "0123456789abcdef"[d]
  }

  function Digits(u: nat, base: nat): (t: string)
    requires 2 <= base <= 16
    ensures |t| > 0
    decreases u
  {
    if u < base then [DigitChar(u)] else
      Shrinks(u, base);
      Digits(u / base, base) + [DigitChar(u % base)]
  }

  lemma {:induction false} Shrinks(u: nat, base: nat)
    requires 2 <= base
    ensures 2 * (u / base) <= u && base * (u / base) + u % base == u
    ensures u < base ==> u / base == 0 && u % base == u
    ensures u >= base ==> 0 < u / base < u
  {
    var q := u / base;
    MulMono(q, 2, base);
    if u < base {
      DivUnique(u, 0, u, base);
    }
  }

  function Fold(t: string, base: nat): nat
  {
    if t == "" then 0 else base * Fold(t[..|t| - 1], base) + Max(Digit(t[|t| - 1]), 0)
  }

  lemma {:induction false} FoldMore(t: string, c: char, base: nat)
    ensures Fold(t + [c], base) == base * Fold(t, base) + Max(Digit(c), 0)
  {
    assert (t + [c])[..|t|] == t;
  }

  lemma {:induction false} FoldStep(t: string, base: nat, q: nat, r: nat)
    requires r < 16 && Fold(t, base) == q
    ensures Fold(t + [DigitChar(r)], base) == base * q + r
  {
    FoldMore(t, DigitChar(r), base);
  }

  lemma {:induction false} FoldDigits(u: nat, base: nat)
    requires 2 <= base <= 16
    ensures Fold(Digits(u, base), base) == u
    decreases u
  {
    Shrinks(u, base);
    if u < base {
      FoldStep("", base, 0, u);
    } else {
      FoldDigits(u / base, base);
      FoldStep(Digits(u / base, base), base, u / base, u % base);
    }
  }

  lemma {:induction false} FoldZeros(n: nat, t: string, base: nat)
    ensures Fold(Rep('0', n) + t, base) == Fold(t, base)
    decreases n + |t|
  {
    if t != "" {
      var k := |t| - 1;
      FoldZeros(n, t[..k], base);
      assert Rep('0', n) + t == Rep('0', n) + t[..k] + [t[k]];
      FoldMore(Rep('0', n) + t[..k], t[k], base);
    } else if n > 0 {
      FoldZeros(n - 1, "", base);
      assert Rep('0', n) + "" == Rep('0', n - 1) + "" + ['0'];
      FoldMore(Rep('0', n - 1) + "", '0', base);
    }
  }

  lemma {:induction false} DigitsAll(u: nat, base: nat)
    requires 2 <= base <= 16
    ensures AllDigits(Digits(u, base), base)
    ensures Digits(u, base)[0] == '0' <==> u == 0
    decreases u
  {
    if u >= base {
      Shrinks(u, base);
      DigitsAll(u / base, base);
    }
  }

  /** Every word fits the 64 characters of the buffer. */
  lemma {:induction false} DigitsFit(u: nat, base: nat, w: nat)
    requires 2 <= base <= 16 && w > 0 && u < Range(w)
    ensures |Digits(u, base)| <= w
    decreases w
  {
    if u >= base {
      Shrinks(u, base);
      assert Range(w) == 2 * Range(w - 1);
      if w > 1 {
        DigitsFit(u / base, base, w - 1);
      }
    }
  }

  //////////////////// print_num ////////////////////

  function Prefix(u: nat, base: nat, altfmt: bool): string
  {
    if u == 0 || !altfmt then "" else if base == 8 then "0" else if base == 16 then "0x" else ""
  }

  /** The sign character; a null character stands for none. */
  function Sign(sign: char): string
  {
    if sign == '\0' then "" else [sign]
  }

  /** The conversion's flags, width and precision. */
  datatype Format = Format(sign: char, altfmt: bool, ladjust: bool, padc: char, length: int, prec: int)

  /** The zeros the precision asks for, and the characters the width still lacks. */
  function Zeros(u: nat, base: nat, f: Format): nat
    requires 2 <= base <= 16
  {
    Max(f.prec - |Digits(u, base)|, 0)
  }

  function Body(u: nat, base: nat, f: Format): string
    requires 2 <= base <= 16
  {
    Sign(f.sign) + Prefix(u, base, f.altfmt) + Rep('0', Zeros(u, base, f))
  }

  function Padding(u: nat, base: nat, f: Format): nat
    requires 2 <= base <= 16
  {
    Max(f.length - |Body(u, base, f)| - |Digits(u, base)|, 0)
  }

  /** The padding goes in front as blanks, behind the prefix as zeros, or to
      the end as blanks. */
  function Lead(u: nat, base: nat, f: Format): string
    requires 2 <= base <= 16
  {
    Rep(' ', if f.padc == ' ' && !f.ladjust then Padding(u, base, f) else 0)
  }

  function Fill(u: nat, base: nat, f: Format): string
    requires 2 <= base <= 16
  {
    Rep('0', if f.padc == '0' then Padding(u, base, f) else 0)
  }

  function Trail(u: nat, base: nat, f: Format): string
    requires 2 <= base <= 16
  {
    Rep(' ', if f.padc == ' ' && f.ladjust then Padding(u, base, f) else 0)
  }

  function Printed(u: nat, base: nat, f: Format): string
    requires 2 <= base <= 16
  {
    Lead(u, base, f) + Body(u, base, f) + Fill(u, base, f) + Digits(u, base) + Trail(u, base, f)
  }

  /** The digit loop: the buffer is filled from its end. */
  method FillDigits(u: nat, base: nat, prec: int) returns (buf: array<char>, p: nat, left: int)
    requires 2 <= base <= 16 && u < Range(64)
    ensures fresh(buf) && buf.Length == 64 && p <= 64
    ensures buf[p..] == Digits(u, base) && left == prec - |Digits(u, base)|
  {
    buf := new char[64];
    p, left := 64, prec;
    var v: nat := u;
    DigitsFit(u, base, 64);
    assert buf[p..] == [];
    while true
      invariant p <= 64 && left == prec - (64 - p)
      invariant Digits(u, base) == Digits(v, base) + buf[p..]
      decreases v
    {
      Shrinks(v, base);
      ghost var tail := buf[p..];
      p := p - 1;
      buf[p] := DigitChar(v % base);
      assert buf[p..] == [DigitChar(v % base)] + tail;
      left := left - 1;
      v := v / base;
      if v == 0 {
        break;
      }
    }
  }

  /** The loop `while (--n >= 0)` that emits one character each turn. */
  method Emit(out: string, c: char, n: int) returns (res: string, left: int)
    ensures res == out + Rep(c, Max(n, 0)) && left < 0
  {
    res, left := out, n - 1;
    while left >= 0
      invariant res == out + Rep(c, if n > 0 then n - 1 - left else 0)
      invariant -1 <= left || left == n - 1
      invariant left < n
    {
      res := res + [c];
      left := left - 1;
    }
  }

  /** What the width still lacks once sign, prefix, precision and digits are
      counted. */
  method CountDown(u: nat, base: nat, f: Format, digits: nat, prec: int) returns (length: int)
    requires 2 <= base <= 16
    requires digits == |Digits(u, base)| && prec == f.prec - digits
    ensures Max(length, 0) == Padding(u, base, f)
  {
    length := f.length - digits;
    if f.sign != '\0' {
      length := length - 1;
    }
    length := length - |Prefix(u, base, f.altfmt)|;
    if prec > 0 {
      length := length - prec;
    }
  }

  method PrintBody(u: nat, base: nat, f: Format, prec: int, out: string) returns (res: string)
    requires 2 <= base <= 16 && prec == f.prec - |Digits(u, base)|
    ensures res == out + Body(u, base, f)
  {
    res := out;
    if f.sign != '\0' {
      res := res + [f.sign];
    }
    assert res == out + Sign(f.sign);
    res := res + Prefix(u, base, f.altfmt);
    var left;
    res, left := Emit(res, '0', prec);
  }

  method PrintNum(u: nat, base: nat, f: Format) returns (out: string)
    requires 2 <= base <= 16 && u < Range(64)
    requires f.padc == ' ' || f.padc == '0'
    ensures out == Printed(u, base, f)
  {
    var buf, p, prec := FillDigits(u, base, f.prec);
    var length := CountDown(u, base, f, 64 - p, prec);
    out := "";
    if f.padc == ' ' && !f.ladjust {
      out, length := Emit(out, ' ', length);
    }
    assert out == Lead(u, base, f);
    out := PrintBody(u, base, f, prec, out);
    ghost var front := out;
    if f.padc == '0' {
      out, length := Emit(out, '0', length);
    }
    assert out == front + Fill(u, base, f);
    out := out + buf[p..];
    front := out;
    if f.ladjust {
      out, length := Emit(out, ' ', length);
    }
    assert out == front + Trail(u, base, f);
  }

  /** The field is as wide as asked, and wider only when the number needs it. */
  lemma {:induction false} WidthHeld(u: nat, base: nat, f: Format)
    requires 2 <= base <= 16 && (f.padc == ' ' || f.padc == '0')
    ensures |Printed(u, base, f)| ==
            Max(f.length, |Sign(f.sign)| + |Prefix(u, base, f.altfmt)| + Max(f.prec, |Digits(u, base)|))
  {
  }

  //////////////////// strtoul ////////////////////

  /** The first position from `i` on that holds no blank. */
  function SkipSpace(s: string, i: nat): (p: nat)
    requires i <= |s|
    ensures i <= p <= |s|
    decreases |s| - i
  {
    if i < |s| && IsSpace(s[i]) then SkipSpace(s, i + 1) else i
  }

  predicate HexPrefix(s: string, p: nat)
  {
    p + 1 < |s| && s[p] == '0' && (s[p + 1] == 'x' || s[p + 1] == 'X')
  }

  /** The base the digits are read in, and where they begin. */
  function Radix(s: string, p: nat, base: int): (r: (int, nat))
    requires p <= |s|
    ensures r.1 <= |s|
  {
    if (base == 16 || base == 0) && HexPrefix(s, p) then (16, p + 2)
    else if base == 0 then (if p < |s| && s[p] == '0' then 8 else 10, p)
    else (base, p)
  }

  function DigitsEnd(s: string, p: nat, base: int): (e: nat)
    requires p <= |s|
    ensures p <= e <= |s| && AllDigits(s[p..e], base)
    ensures e < |s| ==> !IsDigit(s[e], base)
    decreases |s| - p
  {
    if p < |s| && IsDigit(s[p], base) then
      var e := DigitsEnd(s, p + 1, base);
      assert s[p..e] == [s[p]] + s[p + 1..e];
      e
    else p
  }

  function Value(s: string, p: nat, e: nat, base: int): (v: nat)
    requires p <= e <= |s|
    ensures v < Range(64)
  {
    if base <= 0 then 0 else Fold(s[p..e], base) % Range(64)
  }

  /** The value read and the position of the first character not read. */
  function Parse(s: string, base: int): (nat, nat)
  {
    var (b, p) := Radix(s, SkipSpace(s, 0), base);
    var e := DigitsEnd(s, p, b);
    (Value(s, p, e, b), e)
  }

  /** One turn of the digit loop. */
  function Horner(v: nat, base: nat, d: nat): (r: nat)
    ensures r < Range(64)
  {
    (v * base + d) % Range(64)
  }

  lemma {:induction false} HornerMod(f: nat, base: nat, d: nat, m: nat)
    requires m > 0
    ensures (f % m * base + d) % m == (base * f + d) % m
  {
    var r := f % m;
    ModMul(f, base, m);
    ModAdd(r * base, d, m);
    ModAdd(f * base, d, m);
  }

  lemma {:induction false} FoldHorner(t: string, c: char, base: nat, m: nat)
    requires m > 0 && IsDigit(c, base)
    ensures Fold(t + [c], base) % m == (Fold(t, base) % m * base + Digit(c)) % m
  {
    FoldMore(t, c, base);
    HornerMod(Fold(t, base), base, Digit(c), m);
  }

  lemma {:induction false} ValueMore(s: string, p: nat, i: nat, base: int)
    requires p <= i < |s| && IsDigit(s[i], base)
    ensures Value(s, p, i + 1, base) == Horner(Value(s, p, i, base), base, Digit(s[i]))
  {
    assert s[p..i + 1] == s[p..i] + [s[i]];
    FoldHorner(s[p..i], s[i], base, Range(64));
  }

  /** The string ends in a null character, which is neither blank nor digit. */
  function At(s: string, i: nat): (c: char)
  {
    if i < |s| then s[i] else '\0'
  }

  /** The tests of the digit loop: the digit, or -1 to stop. */
  method ReadDigit(c: char, base: int) returns (d: int)
    ensures d == if IsDigit(c, base) then Digit(c) else -1
  {
    if c >= '0' && c <= '9' && c as int - '0' as int < base {
      d := c as int - '0' as int;
    } else if c >= 'a' && c <= 'z' && c as int - 'a' as int + 10 < base {
      d := c as int - 'a' as int + 10;
    } else if c >= 'A' && c <= 'Z' && c as int - 'A' as int + 10 < base {
      d := c as int - 'A' as int + 10;
    } else {
      d := -1;
    }
  }

  lemma {:induction false} ValueNone(s: string, p: nat, base: int)
    requires p <= |s|
    ensures Value(s, p, p, base) == 0
  {
    DivUnique(0, 0, 0, Range(64));
  }

  lemma {:induction false} ReadMore(s: string, start: nat, p: nat, base: int)
    requires start <= p < |s| && AllDigits(s[start..p], base) && IsDigit(s[p], base)
    ensures AllDigits(s[start..p + 1], base)
    ensures DigitsEnd(s, p, base) == DigitsEnd(s, p + 1, base)
  {
    assert s[start..p + 1] == s[start..p] + [s[p]];
  }

  method ReadDigits(s: string, start: nat, base: int) returns (v: nat, p: nat)
    requires start <= |s|
    ensures p == DigitsEnd(s, start, base) && v == Value(s, start, p, base)
  {
    v, p := 0, start;
    ValueNone(s, start, base);
    while true
      invariant start <= p <= |s| && AllDigits(s[start..p], base)
      invariant DigitsEnd(s, start, base) == DigitsEnd(s, p, base)
      invariant v == Value(s, start, p, base)
      decreases |s| - p
    {
      var d := ReadDigit(At(s, p), base);
      if d < 0 {
        break;
      }
      ReadMore(s, start, p, base);
      ValueMore(s, start, p, base);
      v, p := Horner(v, base, d), p + 1;
    }
  }

  method SkipBlank(s: string) returns (p: nat)
    ensures p == SkipSpace(s, 0)
  {
    p := 0;
    while IsSpace(At(s, p))
      invariant p <= |s| && SkipSpace(s, 0) == SkipSpace(s, p)
      decreases |s| - p
    {
      p := p + 1;
    }
  }

  /** The tests for a prefix, and for a base left open. */
  method FindRadix(s: string, start: nat, base: int) returns (b: int, p: nat)
    requires start <= |s|
    ensures (b, p) == Radix(s, start, base)
  {
    b, p := base, start;
    if (b == 16 || b == 0) && At(s, p) == '0' && (At(s, p + 1) == 'x' || At(s, p + 1) == 'X') {
      p, b := p + 2, 16;
    }
    if b == 0 {
      if At(s, p) == '0' {
        b := 8;
      } else {
        b := 10;
      }
    }
  }

  method StrToUl(s: string, base: int) returns (v: nat, p: nat)
    ensures (v, p) == Parse(s, base)
  {
    var b;
    p := SkipBlank(s);
    b, p := FindRadix(s, p, base);
    v, p := ReadDigits(s, p, b);
  }

  //////////////////// Reading back what was printed ////////////////////

  /** An unsigned conversion adjusted to the right. */
  predicate Plain(f: Format)
  {
    f.sign == '\0' && !f.ladjust && (f.padc == ' ' || f.padc == '0')
  }

  lemma {:induction false} SkipBlanks(s: string, n: nat, i: nat)
    requires i <= n < |s| && s[..n] == Rep(' ', n) && !IsSpace(s[n])
    ensures SkipSpace(s, i) == n
    decreases n - i
  {
    if i < n {
      assert s[i] == s[..n][i];
      SkipBlanks(s, n, i + 1);
    }
  }

  lemma {:induction false} EndReached(s: string, p: nat, base: int)
    requires p <= |s| && AllDigits(s[p..], base)
    ensures DigitsEnd(s, p, base) == |s|
    decreases |s| - p
  {
    if p < |s| {
      assert s[p] == s[p..][0] && s[p + 1..] == s[p..][1..];
      EndReached(s, p + 1, base);
    }
  }

  /** Zeros, then digits: what follows the blanks and the hexadecimal prefix. */
  function Tail(u: nat, base: nat, z: nat): (t: string)
    requires 2 <= base <= 16
  {
    Rep('0', z) + Digits(u, base)
  }

  lemma {:induction false} TailReads(u: nat, base: nat, z: nat)
    requires 2 <= base <= 16 && u < Range(64)
    ensures AllDigits(Tail(u, base, z), base) && Fold(Tail(u, base, z), base) % Range(64) == u
    ensures Tail(u, base, z)[0] == '0' <==> z > 0 || u == 0
  {
    DigitsAll(u, base);
    FoldDigits(u, base);
    FoldZeros(z, Digits(u, base), base);
    DivUnique(u, 0, u, Range(64));
  }

  /** A printed number is blanks, perhaps `0x`, and a tail. */
  function Hex(u: nat, base: nat, f: Format): string
  {
    if u != 0 && f.altfmt && base == 16 then "0x" else ""
  }

  function TailZeros(u: nat, base: nat, f: Format): nat
    requires 2 <= base <= 16
  {
    (if u != 0 && f.altfmt && base == 8 then 1 else 0) + Zeros(u, base, f) + |Fill(u, base, f)|
  }

  lemma {:induction false} RepAdd(c: char, a: nat, b: nat)
    ensures Rep(c, a) + Rep(c, b) == Rep(c, a + b)
  {
  }

  lemma {:induction false} BodyShape(u: nat, base: nat, f: Format)
    requires 2 <= base <= 16 && Plain(f)
    ensures Body(u, base, f) + Fill(u, base, f) == Hex(u, base, f) + Rep('0', TailZeros(u, base, f))
  {
    var z, n := Zeros(u, base, f), |Fill(u, base, f)|;
    var k := TailZeros(u, base, f) - z - n;
    assert Prefix(u, base, f.altfmt) == Hex(u, base, f) + Rep('0', k);
    RepAdd('0', z, n);
    RepAdd('0', k, z + n);
    Regroup(Hex(u, base, f), Rep('0', k), Rep('0', z), Rep('0', n));
  }

  lemma {:induction false} Regroup(a: string, b: string, c: string, d: string)
    ensures "" + (a + b) + c + d == a + (b + (c + d))
  {
  }

  lemma {:induction false} Flatten(lead: string, body: string, fill: string, hex: string, zeros: string, t: string)
    requires body + fill == hex + zeros
    ensures lead + body + fill + t + "" == lead + (hex + (zeros + t))
  {
    assert lead + body + fill == lead + (body + fill);
    assert lead + (hex + zeros) + t == lead + (hex + (zeros + t));
  }

  lemma {:induction false} PrintedShape(u: nat, base: nat, f: Format)
    requires 2 <= base <= 16 && Plain(f)
    ensures Printed(u, base, f) == Lead(u, base, f) + (Hex(u, base, f) + Tail(u, base, TailZeros(u, base, f)))
  {
    BodyShape(u, base, f);
    Flatten(Lead(u, base, f), Body(u, base, f), Fill(u, base, f), Hex(u, base, f),
            Rep('0', TailZeros(u, base, f)), Digits(u, base));
  }

  /** Blanks, an optional prefix and digits, as positions in the text. */
  predicate Laid(s: string, n: nat, hex: string, t: string, base: int)
  {
    s == Rep(' ', n) + (hex + t) && t != "" && AllDigits(t, base) && 2 <= base <= 16 &&
    (hex == "" || (hex == "0x" && base == 16))
  }

  lemma {:induction false} LaidOut(s: string, n: nat, hex: string, t: string, base: int)
    requires Laid(s, n, hex, t, base)
    ensures n < |s| && SkipSpace(s, 0) == n
    ensures s[n + |hex|..] == t && |s| == n + |hex| + |t| && s[n] == (hex + t)[0]
  {
    assert s[..n] == Rep(' ', n);
    assert IsDigit(t[0], base);
    assert s[n] == (hex + t)[0];
    SkipBlanks(s, n, 0);
  }

  lemma {:induction false} PrefixSeen(s: string, n: nat, hex: string, t: string, base: int)
    requires Laid(s, n, hex, t, base)
    ensures HexPrefix(s, n) == (hex == "0x")
  {
    LaidOut(s, n, hex, t, base);
    if hex == "0x" {
      assert s[n + 1] == (hex + t)[1];
    } else if |t| > 1 {
      assert s[n + 1] == (hex + t)[1] == t[1];
      assert IsDigit(t[1], base);
    }
  }

  /** Reading blanks, an optional prefix and a tail in the tail's base. */
  lemma {:induction false} ReadsBack(s: string, n: nat, hex: string, t: string, base: int)
    requires Laid(s, n, hex, t, base)
    ensures Radix(s, n, base) == (base, n + |hex|)
    ensures Parse(s, base) == (Fold(t, base) % Range(64), |s|)
  {
    LaidOut(s, n, hex, t, base);
    PrefixSeen(s, n, hex, t, base);
    EndReached(s, n + |hex|, base);
    assert s[n + |hex|..|s|] == t;
  }

  /** Whatever the width, the padding and the precision, reading the printed
      number in its base gives the number back and stops at its end. */
  lemma {:induction false} RoundTrip(u: nat, base: nat, f: Format)
    requires u < Range(64) && (base == 8 || base == 10 || base == 16) && Plain(f)
    ensures Parse(Printed(u, base, f), base) == (u, |Printed(u, base, f)|)
  {
    var z := TailZeros(u, base, f);
    PrintedShape(u, base, f);
    TailReads(u, base, z);
    ReadsBack(Printed(u, base, f), |Lead(u, base, f)|, Hex(u, base, f), Tail(u, base, z), base);
  }

  /** With base 0 the text itself decides the base. */
  predicate Resolves(hex: string, t: string, base: int)
  {
    if hex == "0x" then base == 16 else hex == "" && t != "" && base == if t[0] == '0' then 8 else 10
  }

  lemma {:induction false} ReadsAuto(s: string, n: nat, hex: string, t: string, base: int)
    requires Laid(s, n, hex, t, base) && Resolves(hex, t, base)
    ensures Parse(s, 0) == (Fold(t, base) % Range(64), |s|)
  {
    LaidOut(s, n, hex, t, base);
    PrefixSeen(s, n, hex, t, base);
    ReadsBack(s, n, hex, t, base);
  }

  /** Octal and hexadecimal with the alternate form need no base to be read
      back, whatever the width, the padding and the precision. */
  lemma {:induction false} RoundTripAlternate(u: nat, base: nat, f: Format)
    requires u < Range(64) && (base == 8 || base == 16) && Plain(f) && f.altfmt
    ensures Parse(Printed(u, base, f), 0) == (u, |Printed(u, base, f)|)
  {
    var z, b := TailZeros(u, base, f), if u == 0 then 8 else base;
    PrintedShape(u, base, f);
    TailReads(u, b, z);
    ReadsAuto(Printed(u, base, f), |Lead(u, base, f)|, Hex(u, base, f), Tail(u, b, z), b);
  }

  lemma {:induction false} OctalLess(t: string)
    requires t != "" && AllDigits(t, 10) && t[0] != '0'
    ensures Fold(t, 10) > 0 && Fold(t, 8) <= Fold(t, 10)
    ensures |t| > 1 ==> Fold(t, 8) < Fold(t, 10)
  {
    var k := |t| - 1;
    assert IsDigit(t[k], 10);
    if k > 0 {
      OctalLess(t[..k]);
    } else {
      assert t[..0] == "";
    }
  }

  /** A decimal behind a zero is read as octal, which is another number. */
  lemma {:induction false} OctalDiffers(s: string, n: nat, u: nat, z: nat)
    requires Laid(s, n, "", Tail(u, 10, z), 10) && z > 0 && 8 <= u < Range(64)
    ensures Parse(s, 0) != (u, |s|)
  {
    var t := Tail(u, 10, z);
    LaidOut(s, n, "", t, 10);
    PrefixSeen(s, n, "", t, 10);
    assert s[n] == t[0] == '0';
    assert s[n..|s|] == t;
    OctalValue(u, z);
  }

  lemma {:induction false} OctalValue(u: nat, z: nat)
    requires 8 <= u < Range(64)
    ensures AllDigits(Tail(u, 10, z), 8) ==> Fold(Tail(u, 10, z), 8) % Range(64) < u
  {
    var t := Digits(u, 10);
    DigitsAll(u, 10);
    FoldDigits(u, 10);
    FoldZeros(z, t, 8);
    OctalLess(t);
    DivUnique(Fold(t, 8), 0, Fold(t, 8), Range(64));
    OctalSingle(u, z);
  }

  lemma {:induction false} OctalSingle(u: nat, z: nat)
    requires 8 <= u
    ensures AllDigits(Tail(u, 10, z), 8) ==> |Digits(u, 10)| > 1
  {
    if u < 10 {
      assert !IsDigit(Tail(u, 10, z)[z], 8);
    }
  }

  lemma {:induction false} DecimalReads(s: string, n: nat, u: nat, z: nat)
    requires Laid(s, n, "", Tail(u, 10, z), 10) && u < Range(64)
    ensures Parse(s, 0) == (u, |s|) <==> z == 0 || u < 8
  {
    TailReads(u, 10, z);
    if u < 8 && (z > 0 || u == 0) {
      TailReads(u, 8, z);
      ReadsAuto(s, n, "", Tail(u, 8, z), 8);
    } else if z == 0 {
      ReadsAuto(s, n, "", Tail(u, 10, z), 10);
    } else {
      OctalDiffers(s, n, u, z);
    }
  }

  /** A plain decimal is read back without a base exactly when no zero was put
      in front of it or it is a single octal digit. */
  lemma {:induction false} RoundTripDecimal(u: nat, f: Format)
    requires u < Range(64) && Plain(f)
    ensures Parse(Printed(u, 10, f), 0) == (u, |Printed(u, 10, f)|) <==> TailZeros(u, 10, f) == 0 || u < 8
  {
    PrintedShape(u, 10, f);
    TailReads(u, 10, TailZeros(u, 10, f));
    DecimalReads(Printed(u, 10, f), |Lead(u, 10, f)|, u, TailZeros(u, 10, f));
  }

  /** Ten, printed with width 3 and zeros in front, is read as eight. */
  lemma {:induction false} DecimalAsOctal()
    ensures Printed(10, 10, Format('\0', false, false, '0', 3, -1)) == "010" && Parse("010", 0) == (8, 3)
  {
    TenPadded(Format('\0', false, false, '0', 3, -1));
    assert Digits(1, 8) == "1";
    assert Digits(8, 8) == "10";
    assert Rep('0', 1) == Rep('0', 0) + "0";
    assert Tail(8, 8, 1) == "010";
    TailReads(8, 8, 1);
    ReadsAuto("010", 0, "", Tail(8, 8, 1), 8);
  }

  lemma {:induction false} TenPadded(f: Format)
    requires f == Format('\0', false, false, '0', 3, -1)
    ensures Printed(10, 10, f) == "010"
  {
    assert Digits(1, 10) == "1";
    assert Digits(10, 10) == "10";
    assert Zeros(10, 10, f) == 0 && Rep('0', 0) == "" && Body(10, 10, f) == "";
    assert Padding(10, 10, f) == 1 && Rep('0', 1) == Rep('0', 0) + "0";
  }

  /** What print_num emits behind the sign. */
  function Unsigned(u: nat, base: nat, f: Format): string
    requires 2 <= base <= 16
  {
    Prefix(u, base, f.altfmt) + Rep('0', Zeros(u, base, f)) + Fill(u, base, f) + (Digits(u, base) + Trail(u, base, f))
  }

  /** The sign is the first character behind the blanks, and takes one place of
      the width: without it the rest is the number printed one narrower. Blanks
      come in front, or behind if the number is to be on the left. */
  lemma {:induction false} SignFirst(u: nat, base: nat, f: Format)
    requires 2 <= base <= 16 && f.sign != '\0' && !IsSpace(f.sign) && (f.padc == ' ' || f.padc == '0')
    ensures var s := Printed(u, base, f);
            var p := SkipSpace(s, 0);
            && p < |s| && s[p] == f.sign && (f.ladjust || f.padc == '0' ==> p == 0)
            && s[..p] + s[p + 1..] == Printed(u, base, f.(sign := '\0', length := f.length - 1))
            && (!f.ladjust || f.padc == '0' ==> s[|s| - 1] == DigitChar(u % base))
  {
    SignedShape(u, base, f);
    SkipLead(Printed(u, base, f), Lead(u, base, f), f.sign, Unsigned(u, base, f));
    if !f.ladjust || f.padc == '0' {
      LastDigit(u, base, f);
    }
  }

  lemma {:induction false} SignedShape(u: nat, base: nat, f: Format)
    requires 2 <= base <= 16 && f.sign != '\0'
    ensures Printed(u, base, f) == Lead(u, base, f) + ([f.sign] + Unsigned(u, base, f))
    ensures Printed(u, base, f.(sign := '\0', length := f.length - 1)) == Lead(u, base, f) + Unsigned(u, base, f)
  {
    var g := f.(sign := '\0', length := f.length - 1);
    var body := Prefix(u, base, f.altfmt) + Rep('0', Zeros(u, base, f));
    SameSides(u, base, f);
    assert Body(u, base, f) == [f.sign] + body && Body(u, base, g) == body;
    Associates(Lead(u, base, f), [f.sign], body, Fill(u, base, f), Digits(u, base), Trail(u, base, f));
    Associates(Lead(u, base, f), "", body, Fill(u, base, f), Digits(u, base), Trail(u, base, f));
    assert "" + body == body && "" + Unsigned(u, base, f) == Unsigned(u, base, f);
  }

  lemma {:induction false} Associates(a: string, b: string, c: string, d: string, e: string, t: string)
    ensures a + (b + c) + d + e + t == a + (b + (c + d + (e + t)))
  {
  }

  /** The same padding, on the same side. */
  lemma {:induction false} SameSides(u: nat, base: nat, f: Format)
    requires 2 <= base <= 16 && f.sign != '\0'
    ensures var g := f.(sign := '\0', length := f.length - 1);
            && Lead(u, base, g) == Lead(u, base, f) && Fill(u, base, g) == Fill(u, base, f)
            && Trail(u, base, g) == Trail(u, base, f) && Zeros(u, base, g) == Zeros(u, base, f)
  {
  }

  lemma {:induction false} SkipLead(s: string, lead: string, c: char, rest: string)
    requires s == lead + ([c] + rest) && !IsSpace(c) && lead == Rep(' ', |lead|)
    ensures SkipSpace(s, 0) == |lead| < |s| && s[|lead|] == c && s[..|lead|] + s[|lead| + 1..] == lead + rest
  {
    SkipBlanks(s, |lead|, 0);
  }

  lemma {:induction false} LastDigit(u: nat, base: nat, f: Format)
    requires 2 <= base <= 16 && (!f.ladjust || f.padc == '0')
    ensures var s := Printed(u, base, f); s != "" && s[|s| - 1] == DigitChar(u % base)
  {
    Shrinks(u, base);
    assert Trail(u, base, f) == "";
  }
}
