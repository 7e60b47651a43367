/** The base64 text of a byte sequence, as section 4 of RFC 4648 lays it out. */
module Base64 {
  import opened Wrappers

  type byte = n: nat | n < 0x100

  /** The character for a six-bit number. */
  function Sextet(n: nat): char
    requires n < 64
  {
    if n < 26 then ('A' as int + n) as char
    else if n < 52 then ('a' as int + n - 26) as char
    else if n < 62 then ('0' as int + n - 52) as char
    else if n == 62 then '+'
    else '/'
  }

  /** The six-bit number of a character. */
  function Value(c: char): (v: Option<nat>)
    ensures v.Some? ==> v.value < 64
  {
    if 'A' <= c <= 'Z' then Some(c as int - 'A' as int)
    else if 'a' <= c <= 'z' then Some(c as int - 'a' as int + 26)
    else if '0' <= c <= '9' then Some(c as int - '0' as int + 52)
    else if c == '+' then Some(62)
    else if c == '/' then Some(63)
    else None
  }

  // ---- Groups of three bytes ----

  /** Three bytes are four characters; a rest of one or two bytes is padded with `=`. */
  function Quad(g: seq<byte>): string
    requires 1 <= |g| <= 3
  {
    if |g| == 1 then [Sextet(g[0] / 4), Sextet(g[0] % 4 * 16), '=', '=']
    else if |g| == 2 then
      [Sextet(g[0] / 4), Sextet(g[0] % 4 * 16 + g[1] / 16), Sextet(g[1] % 16 * 4), '=']
    else
      [Sextet(g[0] / 4), Sextet(g[0] % 4 * 16 + g[1] / 16), Sextet(g[1] % 16 * 4 + g[2] / 64), Sextet(g[2] % 64)]
  }

  /** The bytes of four characters. Bits that the padding cuts off must be zero. */
  function Group(a: char, b: char, c: char, d: char): Option<seq<byte>> {
    match (Value(a), Value(b), Value(c), Value(d))
    case (Some(w), Some(x), Some(y), Some(z)) => Some([w * 4 + x / 16, x % 16 * 16 + y / 4, y % 4 * 64 + z])
    case (Some(w), Some(x), Some(y), None) =>
      if d == '=' && y % 4 == 0 then Some([w * 4 + x / 16, x % 16 * 16 + y / 4]) else None
    case (Some(w), Some(x), None, None) =>
      if c == '=' && d == '=' && x % 16 == 0 then Some([w * 4 + x / 16]) else None
    case _ => None
  }

  /** Table 1 of RFC 4648: the capital letters, the small ones, the digits, `+` and `/`, in this
      order and each exactly once. */
  lemma Alphabet(m: nat, n: nat)
    requires m < 64 && n < 64
    ensures Sextet(0) == 'A' && Sextet(25) == 'Z' && Sextet(26) == 'a' && Sextet(51) == 'z'
    ensures Sextet(52) == '0' && Sextet(61) == '9' && Sextet(62) == '+' && Sextet(63) == '/'
    ensures n < 62 && n !in {25, 51, 61} ==> Sextet(n + 1) as int == Sextet(n) as int + 1
    ensures Sextet(m) == Sextet(n) <==> m == n
  {
    SextetValue(m);
    SextetValue(n);
  }

  lemma SextetValue(n: nat)
    requires n < 64
    ensures Value(Sextet(n)) == Some(n)
  {
  }

  lemma ValueSextet(c: char)
    ensures Value(c).Some? ==> Sextet(Value(c).value) == c
    ensures Value('=').None?
  {
  }

  lemma Sixteen(high: nat, low: nat)
    requires low < 16
    ensures (high * 16 + low) / 16 == high && (high * 16 + low) % 16 == low
  {
  }

  /** Cutting three bytes into sextets loses nothing. */
  lemma Sextets(a: nat, b: nat, c: nat)
    requires a < 256 && b < 256 && c < 256
    ensures var w, x, y, z := a / 4, a % 4 * 16 + b / 16, b % 16 * 4 + c / 64, c % 64;
      && x / 16 == a % 4 && x % 16 == b / 16 && y / 4 == b % 16 && y % 4 == c / 64
      && w * 4 + x / 16 == a && x % 16 * 16 + y / 4 == b && y % 4 * 64 + z == c
  {
    Sixteen(a % 4, b / 16);
    Split(b % 16, c / 64);
  }

  lemma OneGroups(a: byte)
    ensures Group(Sextet(a / 4), Sextet(a % 4 * 16), '=', '=') == Some([a])
  {
    Sextets(a, 0, 0);
    SextetValue(a / 4);
    SextetValue(a % 4 * 16);
    ValueSextet('=');
  }

  lemma TwoGroups(a: byte, b: byte)
    ensures Group(Sextet(a / 4), Sextet(a % 4 * 16 + b / 16), Sextet(b % 16 * 4), '=') == Some([a, b])
  {
    Sextets(a, b, 0);
    SextetValue(a / 4);
    SextetValue(a % 4 * 16 + b / 16);
    SextetValue(b % 16 * 4);
    ValueSextet('=');
  }

  lemma ThreeGroups(a: byte, b: byte, c: byte)
    ensures Group(Sextet(a / 4), Sextet(a % 4 * 16 + b / 16), Sextet(b % 16 * 4 + c / 64), Sextet(c % 64)) == Some([a, b, c])
  {
    Sextets(a, b, c);
    SextetValue(a / 4);
    SextetValue(a % 4 * 16 + b / 16);
    SextetValue(b % 16 * 4 + c / 64);
    SextetValue(c % 64);
  }

  lemma QuadGroups(g: seq<byte>)
    requires 1 <= |g| <= 3
    ensures var q := Quad(g); Group(q[0], q[1], q[2], q[3]) == Some(g)
  {
    if |g| == 1 {
      OneGroups(g[0]);
      assert g == [g[0]];
    } else if |g| == 2 {
      TwoGroups(g[0], g[1]);
      assert g == [g[0], g[1]];
    } else {
      ThreeGroups(g[0], g[1], g[2]);
      assert g == [g[0], g[1], g[2]];
    }
  }

  lemma Split(high: nat, low: nat)
    requires low < 4
    ensures (high * 4 + low) / 4 == high && (high * 4 + low) % 4 == low
  {
  }

  lemma Regrouped(w: nat, x: nat, y: nat, z: nat)
    requires w < 64 && x < 64 && y < 64 && z < 64
    ensures var a, b, c := w * 4 + x / 16, x % 16 * 16 + y / 4, y % 4 * 64 + z;
      && a / 4 == w && a % 4 * 16 + b / 16 == x && b % 16 * 4 + c / 64 == y && c % 64 == z
      && a % 4 == x / 16 && b / 16 == x % 16 && b % 16 == y / 4
  {
    Split(w, x / 16);
  }

  lemma GroupQuads(a: char, b: char, c: char, d: char)
    requires Group(a, b, c, d).Some?
    ensures var g := Group(a, b, c, d).value; 1 <= |g| <= 3 && Quad(g) == [a, b, c, d]
  {
    ValueSextet(a);
    ValueSextet(b);
    ValueSextet(c);
    ValueSextet(d);
    var w, x := Value(a).value, Value(b).value;
    var y, z := if Value(c).Some? then Value(c).value else 0, if Value(d).Some? then Value(d).value else 0;
    Regrouped(w, x, y, z);
    if Value(d).Some? {
      FullQuad(w, x, y, z);
    }
  }

  lemma FullQuad(w: nat, x: nat, y: nat, z: nat)
    requires w < 64 && x < 64 && y < 64 && z < 64
    ensures Quad([w * 4 + x / 16, x % 16 * 16 + y / 4, y % 4 * 64 + z]) == [Sextet(w), Sextet(x), Sextet(y), Sextet(z)]
  {
    Regrouped(w, x, y, z);
  }

  // ---- Whole texts ----

  function Encode(bytes: seq<byte>): string {
    if bytes == [] then ""
    else if |bytes| <= 3 then Quad(bytes)
    else Quad(bytes[..3]) + Encode(bytes[3..])
  }

  function Decode(text: string): Option<seq<byte>> {
    if text == "" then Some([])
    else if |text| < 4 then None
    else
      match Group(text[0], text[1], text[2], text[3])
      case None => None
      case Some(g) =>
        if |text| == 4 then Some(g)
        else if |g| < 3 then None
        else
          match Decode(text[4..])
          case None => None
          case Some(rest) => Some(g + rest)
  }

  lemma {:induction false} EncodeDecodes(bytes: seq<byte>)
    ensures Decode(Encode(bytes)) == Some(bytes)
    ensures bytes != [] ==> |Encode(bytes)| >= 4
    decreases |bytes|
  {
    if 0 < |bytes| <= 3 {
      QuadGroups(bytes);
    } else if bytes != [] {
      var head, rest := bytes[..3], bytes[3..];
      QuadGroups(head);
      EncodeDecodes(rest);
      assert Encode(bytes)[4..] == Encode(rest);
      assert head + rest == bytes;
    }
  }

  lemma Cut(g: seq<byte>, rest: seq<byte>, text: string)
    requires |g| == 3 && |text| >= 4
    ensures (g + rest)[..3] == g && (g + rest)[3..] == rest
    ensures text == [text[0], text[1], text[2], text[3]] + text[4..]
  {
  }

  lemma {:induction false} DecodeEncodes(text: string)
    requires Decode(text).Some?
    ensures Encode(Decode(text).value) == text
    ensures text != "" ==> Decode(text).value != []
    decreases |text|
  {
    if text != "" {
      GroupQuads(text[0], text[1], text[2], text[3]);
      var g := Group(text[0], text[1], text[2], text[3]).value;
      if |text| == 4 {
        assert text == [text[0], text[1], text[2], text[3]];
      } else {
        var rest := Decode(text[4..]).value;
        DecodeEncodes(text[4..]);
        Cut(g, rest, text);
      }
    }
  }

  /** A text decodes to exactly the bytes of which it is the encoding, and to nothing otherwise. */
  lemma DecodesExactly(text: string, bytes: seq<byte>)
    ensures Decode(text) == Some(bytes) <==> Encode(bytes) == text
  {
    EncodeDecodes(bytes);
    if Decode(text).Some? {
      DecodeEncodes(text);
    }
  }

  /** Examples of section 10 of RFC 4648, and one with the last two characters of the alphabet. */
  lemma StandardExamples()
    ensures Encode([]) == "" && Encode([0x66]) == "Zg==" && Encode([0x66, 0x6F]) == "Zm8="
    ensures Encode([0x66, 0x6F, 0x6F]) == "Zm9v" && Encode([0x66, 0x6F, 0x6F, 0x62]) == "Zm9vYg=="
    ensures Encode([0xFB, 0xFF, 0xBF]) == "+/+/"
  {
    assert [0x66, 0x6F, 0x6F, 0x62][..3] == [0x66, 0x6F, 0x6F] && [0x66, 0x6F, 0x6F, 0x62][3..] == [0x62];
  }
}
