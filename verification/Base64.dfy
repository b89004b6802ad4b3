/** Unpadded base64 of byte strings whose length is a multiple of three (sections 3.2 and 4 of RFC 4648). */
module Base64 {
  import opened Bytes

  type sextet = x: int | 0 <= x < 64

  function Digit(x: sextet): char {
    if x < 26 then 'A' + x as char
    else if x < 52 then 'a' + (x - 26) as char
    else if x < 62 then '0' + (x - 52) as char
    else if x == 62 then '+' else '/'
  }

  lemma DigitInjective(x: sextet, y: sextet)
    requires Digit(x) == Digit(y)
    ensures x == y
  {
  }

  function Sextets(a: byte, b: byte, c: byte): (s: seq<sextet>)
    ensures |s| == 4
  {
    [a / 4, (a % 4) * 16 + b / 16, (b % 16) * 4 + c / 64, c % 64]
  }

  function Encode(s: seq<byte>): (r: string)
    requires |s| % 3 == 0
    ensures |r| == |s| / 3 * 4
  {
    if s == [] then ""
    else
      var q := Sextets(s[0], s[1], s[2]);
      [Digit(q[0]), Digit(q[1]), Digit(q[2]), Digit(q[3])] + Encode(s[3..])
  }

  lemma SextetsInjective(a: byte, b: byte, c: byte, x: byte, y: byte, z: byte)
    requires Sextets(a, b, c) == Sextets(x, y, z)
    ensures a == x && b == y && c == z
  {
    var s, t := Sextets(a, b, c), Sextets(x, y, z);
    assert s[0] == t[0] && s[1] == t[1] && s[2] == t[2] && s[3] == t[3];
  }

  lemma {:induction false} EncodeInjective(s: seq<byte>, t: seq<byte>)
    requires |s| == |t| && |s| % 3 == 0 && Encode(s) == Encode(t)
    ensures s == t
  {
    if s != [] {
      var p, q := Sextets(s[0], s[1], s[2]), Sextets(t[0], t[1], t[2]);
      forall k | 0 <= k < 4
        ensures p[k] == q[k]
      {
        assert Encode(s)[k] == Digit(p[k]) && Encode(t)[k] == Digit(q[k]);
        DigitInjective(p[k], q[k]);
      }
      SextetsInjective(s[0], s[1], s[2], t[0], t[1], t[2]);
      assert Encode(s)[4..] == Encode(s[3..]) && Encode(t)[4..] == Encode(t[3..]);
      EncodeInjective(s[3..], t[3..]);
      assert s == [s[0], s[1], s[2]] + s[3..] && t == [t[0], t[1], t[2]] + t[3..];
    }
  }

  /** The value of a letter of the standard alphabet. */
  function Value(c: char): int {
    if 'A' <= c <= 'Z' then c as int - 'A' as int
    else if 'a' <= c <= 'z' then c as int - 'a' as int + 26
    else if '0' <= c <= '9' then c as int - '0' as int + 52
    else if c == '+' then 62 else 63
  }

  /** Reading letters back, four at a time, as the digits in base 64 of a 24-bit number. */
  function Decode(r: string): (s: seq<int>) {
    if |r| < 4 then []
    else
      var n := Number(Value(r[0]), Value(r[1]), Value(r[2]), Value(r[3]));
      [n / 65536, n / 256 % 256, n % 256] + Decode(r[4..])
  }

  lemma DigitValue(x: sextet)
    ensures Value(Digit(x)) == x
  {
  }

  function Number(v: int, w: int, x: int, y: int): int {
    ((v * 64 + w) * 64 + x) * 64 + y
  }

  lemma GroupNumber(a: byte, b: byte, c: byte)
    ensures var q, x, y, z := Sextets(a, b, c), a as int, b as int, c as int;
            Number(q[0], q[1], q[2], q[3]) == x * 65536 + y * 256 + z
  {
  }

  lemma SplitNumber(x: int, y: int, z: int)
    requires 0 <= y < 256 && 0 <= z < 256
    ensures var n := x * 65536 + y * 256 + z; n / 65536 == x && n / 256 % 256 == y && n % 256 == z
  {
    assert (x * 65536 + y * 256 + z) / 256 == x * 256 + y;
  }

  lemma GroupDecodes(a: byte, b: byte, c: byte)
    ensures var q := Sextets(a, b, c);
            var n := Number(Value(Digit(q[0])), Value(Digit(q[1])), Value(Digit(q[2])), Value(Digit(q[3])));
            n / 65536 == a && n / 256 % 256 == b && n % 256 == c
  {
    hide Digit, Value, Sextets, Number;
    var q := Sextets(a, b, c);
    DigitValue(q[0]);
    DigitValue(q[1]);
    DigitValue(q[2]);
    DigitValue(q[3]);
    var x: int, y: int, z: int := a, b, c;
    GroupNumber(a, b, c);
    SplitNumber(x, y, z);
  }

  /** The encoding can be read back in the standard alphabet. */
  lemma {:induction false} EncodeDecodes(s: seq<byte>)
    requires |s| % 3 == 0
    ensures Decode(Encode(s)) == s
  {
    hide Digit, Value, Sextets, Number;
    if s != [] {
      GroupDecodes(s[0], s[1], s[2]);
      assert Encode(s)[4..] == Encode(s[3..]);
      EncodeDecodes(s[3..]);
      assert s == [s[0], s[1], s[2]] + s[3..];
    }
  }
}
