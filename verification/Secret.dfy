/** The shared-secret comparison: an xor/or fold over the UTF-8 bytes of two strings. */
module Secret {
  /** Bitwise exclusive or, lowest bit first. */
  function Xor(x: nat, y: nat): nat {
    if x == 0 && y == 0 then 0
    else (if x % 2 != y % 2 then 1 else 0) + 2 * Xor(x / 2, y / 2)
  }

  /** Bitwise or, lowest bit first. */
  function Or(x: nat, y: nat): nat {
    if x == 0 && y == 0 then 0
    else (if x % 2 == 1 || y % 2 == 1 then 1 else 0) + 2 * Or(x / 2, y / 2)
  }

  /** The bytes of a string, as section 3 of RFC 3629 lays them out. */
  function Utf8(s: string): seq<nat> {
    if s == "" then [] else EncodeChar(s[0]) + Utf8(s[1..])
  }

  function EncodeChar(c: char): (bytes: seq<nat>)
    ensures forall b <- bytes :: b < 0x100
  {
    var n := c as int;
    if n < 0x80 then [n]
    else if n < 0x800 then [0xC0 + n / 0x40, 0x80 + n % 0x40]
    else if n < 0x1_0000 then [0xE0 + n / 0x1000, 0x80 + n / 0x40 % 0x40, 0x80 + n % 0x40]
    else [0xF0 + n / 0x4_0000, 0x80 + n / 0x1000 % 0x40, 0x80 + n / 0x40 % 0x40, 0x80 + n % 0x40]
  }

  /** The fold: every pair of bytes is inspected, whatever came before. */
  function Difference(acc: nat, a: seq<nat>, b: seq<nat>): nat
    decreases |a|
  {
    if |a| == 0 || |b| == 0 then acc
    else Difference(Or(acc, Xor(a[0], b[0])), a[1..], b[1..])
  }

  predicate ConstantTimeEq(a: string, b: string) {
    var x, y := Utf8(a), Utf8(b);
    |x| == |y| && Difference(0, x, y) == 0
  }

  /** An empty secret admits nobody. */
  predicate Authorized(token: string, secret: string) {
    secret != "" && ConstantTimeEq(token, secret)
  }

  lemma {:induction false} XorZero(x: nat, y: nat)
    ensures Xor(x, y) == 0 <==> x == y
  {
    if x != 0 || y != 0 {
      XorZero(x / 2, y / 2);
    }
  }

  lemma {:induction false} OrZero(x: nat, y: nat)
    ensures Or(x, y) == 0 <==> x == 0 && y == 0
  {
    if x != 0 || y != 0 {
      OrZero(x / 2, y / 2);
    }
  }

  lemma {:induction false} DifferenceZero(acc: nat, a: seq<nat>, b: seq<nat>)
    requires |a| == |b|
    ensures Difference(acc, a, b) == 0 <==> acc == 0 && a == b
    decreases |a|
  {
    if a != [] {
      XorZero(a[0], b[0]);
      OrZero(acc, Xor(a[0], b[0]));
      DifferenceZero(Or(acc, Xor(a[0], b[0])), a[1..], b[1..]);
      assert a == [a[0]] + a[1..] && b == [b[0]] + b[1..];
    }
  }

  /** No encoded character is a proper prefix of another's bytes. */
  lemma EncodeCharPrefixFree(c: char, d: char, x: seq<nat>, y: seq<nat>)
    requires EncodeChar(c) + x == EncodeChar(d) + y
    ensures c == d && x == y
  {
    var p, q := EncodeChar(c), EncodeChar(d);
    assert p[0] == (p + x)[0] == (q + y)[0] == q[0];
    assert |p| == |q|;
    assert p == (p + x)[..|p|] == (q + y)[..|q|] == q;
    assert x == (p + x)[|p|..] == (q + y)[|q|..] == y;
    CodePoint(c);
    CodePoint(d);
  }

  function DecodeChar(p: seq<int>): int
    requires 1 <= |p| <= 4
  {
    if |p| == 1 then p[0]
    else if |p| == 2 then (p[0] - 0xC0) * 0x40 + (p[1] - 0x80)
    else if |p| == 3 then (p[0] - 0xE0) * 0x1000 + (p[1] - 0x80) * 0x40 + (p[2] - 0x80)
    else (p[0] - 0xF0) * 0x4_0000 + (p[1] - 0x80) * 0x1000 + (p[2] - 0x80) * 0x40 + (p[3] - 0x80)
  }

  lemma SixBitDigits(n: nat)
    ensures n == n / 0x40 * 0x40 + n % 0x40
    ensures n / 0x40 == n / 0x1000 * 0x40 + n / 0x40 % 0x40
    ensures n / 0x1000 == n / 0x4_0000 * 0x40 + n / 0x1000 % 0x40
  {
    assert n / 0x1000 == n / 0x40 / 0x40;
    assert n / 0x4_0000 == n / 0x1000 / 0x40;
  }

  lemma CodePoint(c: char)
    ensures DecodeChar(EncodeChar(c)) == c as int
  {
    var n, p := c as int, EncodeChar(c);
    SixBitDigits(n);
    if n < 0x80 {
    } else if n < 0x800 {
      assert DecodeChar(p) == (p[0] - 0xC0) * 0x40 + (p[1] - 0x80);
    } else if n < 0x1_0000 {
      assert DecodeChar(p) == (p[0] - 0xE0) * 0x1000 + (p[1] - 0x80) * 0x40 + (p[2] - 0x80);
    } else {
      assert DecodeChar(p) == (p[0] - 0xF0) * 0x4_0000 + (p[1] - 0x80) * 0x1000 + (p[2] - 0x80) * 0x40 + (p[3] - 0x80);
    }
  }

  lemma {:induction false} Utf8Injective(s: string, t: string)
    requires Utf8(s) == Utf8(t)
    ensures s == t
  {
    if s != "" && t != "" {
      EncodeCharPrefixFree(s[0], t[0], Utf8(s[1..]), Utf8(t[1..]));
      Utf8Injective(s[1..], t[1..]);
      assert s == [s[0]] + s[1..] && t == [t[0]] + t[1..];
    }
  }

  /** Each character is one to four bytes: the examples of section 7 of RFC 3629, and one of each
      length. */
  lemma Utf8Examples()
    ensures Utf8("A") == [0x41] && EncodeChar(0xA2 as char) == [0xC2, 0xA2]
    ensures EncodeChar(0x2262 as char) == [0xE2, 0x89, 0xA2] && EncodeChar(0x233B4 as char) == [0xF0, 0xA3, 0x8E, 0xB4]
    ensures forall c: char | c as int < 0x80 :: EncodeChar(c) == [c as int]
  {
  }

  /** The constant-time comparison decides string equality, both ways. */
  lemma ConstantTimeEqDecidesEquality(a: string, b: string)
    ensures ConstantTimeEq(a, b) <==> a == b
  {
    var x, y := Utf8(a), Utf8(b);
    if |x| == |y| {
      DifferenceZero(0, x, y);
      if x == y {
        Utf8Injective(a, b);
      }
    }
  }
}
