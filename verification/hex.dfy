/** Hexadecimal digits and the unsigned big-endian reading of a digit string,
    as `hexToNumber("0x" + digits)` performs it. */
module Hex {

  predicate IsHexDigit(c: char) {
    ('0' <= c <= '9') || ('a' <= c <= 'f') || ('A' <= c <= 'F')
  }

  predicate AllHexDigits(s: seq<char>) {
    forall i :: 0 <= i < |s| ==> IsHexDigit(s[i])
  }

  /** Value of one digit; upper- and lower-case letters read alike. */
  function DigitValue(c: char): (v: nat)
    requires IsHexDigit(c)
    ensures v < 16
    ensures ('0' <= c <= '9') <==> v < 10
  {
    if '0' <= c <= '9' then (c - '0') as nat
    else if 'a' <= c <= 'f' then (c - 'a') as nat + 10
    else (c - 'A') as nat + 10
  }

  /** The canonical (lower-case) digit for a value below 16. */
  function DigitChar(v: nat): (c: char)
    requires v < 16
    ensures IsHexDigit(c)
    ensures DigitValue(c) == v
    ensures !('A' <= c <= 'F')
  {
    if v < 10 then ('0' as int + v) as char else ('a' as int + v - 10) as char
  }

  function Pow16(n: nat): (p: nat)
    ensures p >= 1
  {
    if n == 0 then 1 else 16 * Pow16(n - 1)
  }

  lemma {:induction false} Pow16Monotonic(m: nat, n: nat)
    requires m <= n
    ensures Pow16(m) <= Pow16(n)
  {
    if m < n {
      Pow16Monotonic(m, n - 1);
    }
  }

  /** Unsigned big-endian value of a digit string; the empty string reads 0. */
  function Decode(s: seq<char>): (v: nat)
    requires AllHexDigits(s)
    ensures v < Pow16(|s|)
  {
    if s == [] then 0
    else
      var d := Decode(s[..|s| - 1]);
      assert d <= Pow16(|s| - 1) - 1;
      16 * d + DigitValue(s[|s| - 1])
  }

  /** The canonical `width`-digit lower-case rendering of `v` (most
      significant digit first); the reference inverse of `Decode`. */
  function Encode(v: nat, width: nat): (s: seq<char>)
    ensures |s| == width
    ensures AllHexDigits(s)
    ensures IsLowerHex(s)
  {
    if width == 0 then [] else Encode(v / 16, width - 1) + [DigitChar(v % 16)]
  }

  /** A string is canonical when it uses no upper-case letter. */
  predicate IsLowerHex(s: seq<char>) {
    forall i :: 0 <= i < |s| ==> IsHexDigit(s[i]) && !('A' <= s[i] <= 'F')
  }

  /** Upper-case letters folded to lower case; other characters unchanged. */
  function LowerDigit(c: char): char {
    if 'A' <= c <= 'F' then (c as int + 32) as char else c
  }

  function ToLower(s: seq<char>): (t: seq<char>)
    ensures |t| == |s|
    ensures forall i :: 0 <= i < |s| ==> t[i] == LowerDigit(s[i])
  {
    seq(|s|, i requires 0 <= i < |s| => LowerDigit(s[i]))
  }

  /** A letter digit reads the same in either case. */
  lemma DigitValueIgnoresCase(c: char)
    requires IsHexDigit(c)
    ensures IsHexDigit(LowerDigit(c)) && !('A' <= LowerDigit(c) <= 'F')
    ensures DigitValue(LowerDigit(c)) == DigitValue(c)
  {
  }

  /** A digit string reads the same as its lower-case form. */
  lemma {:induction false} DecodeIgnoresCase(s: seq<char>)
    requires AllHexDigits(s)
    ensures IsLowerHex(ToLower(s))
    ensures Decode(ToLower(s)) == Decode(s)
  {
    var t := ToLower(s);
    forall i | 0 <= i < |s| ensures IsHexDigit(t[i]) && !('A' <= t[i] <= 'F') {
      DigitValueIgnoresCase(s[i]);
    }
    if s != [] {
      var init := s[..|s| - 1];
      DecodeIgnoresCase(init);
      assert t[..|t| - 1] == ToLower(init);
      DigitValueIgnoresCase(s[|s| - 1]);
    }
  }

  /** Decoding a canonical rendering gives back the value. */
  lemma {:induction false} DecodeEncode(v: nat, width: nat)
    requires v < Pow16(width)
    ensures Decode(Encode(v, width)) == v
  {
    if width > 0 {
      var s := Encode(v, width);
      assert v / 16 < Pow16(width - 1);
      DecodeEncode(v / 16, width - 1);
      assert s[..|s| - 1] == Encode(v / 16, width - 1);
    }
  }

  /** Rendering the value of a canonical string gives back the string. */
  lemma {:induction false} EncodeDecode(s: seq<char>)
    requires IsLowerHex(s)
    ensures Encode(Decode(s), |s|) == s
  {
    if s != [] {
      var init := s[..|s| - 1];
      var last := s[|s| - 1];
      EncodeDecode(init);
      var v := Decode(s);
      assert v == 16 * Decode(init) + DigitValue(last);
      assert v / 16 == Decode(init) && v % 16 == DigitValue(last);
      assert DigitChar(DigitValue(last)) == last;
      assert s == init + [last];
    }
  }

  lemma AppendAllHex(a: seq<char>, b: seq<char>)
    requires AllHexDigits(a) && AllHexDigits(b)
    ensures AllHexDigits(a + b)
  {
    var ab := a + b;
    forall i | 0 <= i < |ab| ensures IsHexDigit(ab[i]) {
      if i < |a| { assert ab[i] == a[i]; } else { assert ab[i] == b[i - |a|]; }
    }
  }

  lemma ShiftStep(x: int, p: int, y: int, d: int)
    ensures 16 * (x * p + y) + d == x * (16 * p) + (16 * y + d)
  {
  }

  /** Reading a concatenation: the left part is shifted by the right part's width. */
  lemma {:induction false} DecodeAppend(a: seq<char>, b: seq<char>)
    requires AllHexDigits(a) && AllHexDigits(b)
    ensures AllHexDigits(a + b)
    ensures Decode(a + b) == Decode(a) * Pow16(|b|) + Decode(b)
  {
    AppendAllHex(a, b);
    var ab := a + b;
    if b == [] {
      assert ab == a;
    } else {
      var init := b[..|b| - 1];
      var d := DigitValue(b[|b| - 1]);
      AppendAllHex(a, init);
      DecodeAppend(a, init);
      assert ab[..|ab| - 1] == a + init;
      assert ab[|ab| - 1] == b[|b| - 1];
      assert Decode(ab) == 16 * Decode(a + init) + d;
      assert Decode(b) == 16 * Decode(init) + d;
      ShiftStep(Decode(a), Pow16(|init|), Decode(init), d);
    }
  }
}
