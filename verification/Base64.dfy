/** The base 64 encoding of section 4 of RFC 4648, with padding. */
module Base64 {
  import opened Wrappers

  type Byte = x: int | 0 <= x < 256

  // ---- six bits to a character and back ----

  type Sextet = x: int | 0 <= x < 64

  function Symbol(n: Sextet): (c: char) {
    if n < 26 then 'A' + n as char
    else if n < 52 then 'a' + (n - 26) as char
    else if n < 62 then '0' + (n - 52) as char
    else if n == 62 then '+' else '/'
  }

  function Index(c: int): (n: Option<Sextet>) {
    if 'A' as int <= c <= 'Z' as int then Some(c - 'A' as int)
    else if 'a' as int <= c <= 'z' as int then Some(c - 'a' as int + 26)
    else if '0' as int <= c <= '9' as int then Some(c - '0' as int + 52)
    else if c == '+' as int then Some(62)
    else if c == '/' as int then Some(63)
    else None
  }

  const PAD: int := '=' as int

  // ---- encoding ----

  function Code(n: Sextet): (c: int)
    ensures Index(c) == Some(n) && c != PAD
  {
    Symbol(n) as int
  }

  function Quad(a: Sextet, c: Sextet, d: Sextet, e: Sextet): (q: string) { [Symbol(a), Symbol(c), Symbol(d), Symbol(e)] }

  function Encode(b: seq<Byte>): (s: string)
    decreases |b|
  {
    if b == [] then ""
    else if |b| == 1 then [Symbol(b[0] / 4), Symbol(b[0] % 4 * 16), '=', '=']
    else if |b| == 2 then [Symbol(b[0] / 4), Symbol(b[0] % 4 * 16 + b[1] / 16), Symbol(b[1] % 16 * 4), '=']
    else Quad(b[0] / 4, b[0] % 4 * 16 + b[1] / 16, b[1] % 16 * 4 + b[2] / 64, b[2] % 64) + Encode(b[3..])
  }

  // ---- decoding ----

  /** Groups of four characters, padding only at the end; the bits that padding
      leaves over must be zero. */
  function Decode(s: seq<int>): (b: Option<seq<Byte>>)
    decreases |s|
  {
    if s == [] then Some([])
    else if |s| < 4 then None
    else
      var (a, c) := (Index(s[0]), Index(s[1]));
      if a.None? || c.None? then None
      else
        var first: Byte := a.value * 4 + c.value / 16;
        if s[2] == PAD then
          if |s| == 4 && s[3] == PAD && c.value % 16 == 0 then Some([first]) else None
        else if Index(s[2]).None? then None
        else
          var d := Index(s[2]).value;
          var second: Byte := c.value % 16 * 16 + d / 4;
          if s[3] == PAD then
            if |s| == 4 && d % 4 == 0 then Some([first, second]) else None
          else if Index(s[3]).None? then None
          else
            var third: Byte := d % 4 * 64 + Index(s[3]).value;
            match Decode(s[4..])
            case None => None
            case Some(rest) => Some([first, second, third] + rest)
  }

  // A text as the numbers of its characters.
  function Codes(s: string): (cs: seq<int>)
    ensures |cs| == |s|
  {
    seq(|s|, i requires 0 <= i < |s| => s[i] as int)
  }

  lemma DecodeQuad(s: seq<int>, a: Sextet, c: Sextet, d: Sextet, e: Sextet)
    requires |s| >= 4 && s[..4] == [Code(a), Code(c), Code(d), Code(e)]
    ensures Decode(s) ==
      if Decode(s[4..]).None? then None else Some([a * 4 + c / 16, c % 16 * 16 + d / 4, d % 4 * 64 + e] + Decode(s[4..]).value)
  {
    assert s[0] == s[..4][0] && s[1] == s[..4][1] && s[2] == s[..4][2] && s[3] == s[..4][3];
  }

  lemma DecodeTwo(b: Byte, c: Byte)
    ensures Decode([Code(b / 4), Code(b % 4 * 16 + c / 16), Code(c % 16 * 4), PAD]) == Some([b, c])
  {
    BitsBack(b, c, 0);
  }

  lemma BitsBack(b: Byte, c: Byte, d: Byte)
    ensures var (p, q, r, t) := (b / 4, b % 4 * 16 + c / 16, c % 16 * 4 + d / 64, d % 64);
      p * 4 + q / 16 == b && q % 16 * 16 + r / 4 == c && r % 4 * 64 + t == d
  {
    assert (b % 4 * 16 + c / 16) / 16 == b % 4 && (b % 4 * 16 + c / 16) % 16 == c / 16;
    assert (c % 16 * 4 + d / 64) / 4 == c % 16 && (c % 16 * 4 + d / 64) % 4 == d / 64;
  }

  ghost predicate ComesBack(b: seq<Byte>) { Decode(Codes(Encode(b))) == Some(b) }

  lemma TwoBack(b: Byte, c: Byte)
    ensures ComesBack([b, c])
  {
    assert Codes(Encode([b, c])) == [Code(b / 4), Code(b % 4 * 16 + c / 16), Code(c % 16 * 4), PAD];
    DecodeTwo(b, c);
  }

  // Three bytes are four sextets, which give the bytes back.
  lemma EncodeThree(b: Byte, c: Byte, d: Byte, more: seq<Byte>) returns (p: Sextet, q: Sextet, r: Sextet, t: Sextet)
    ensures Codes(Encode([b, c, d] + more)) == [Code(p), Code(q), Code(r), Code(t)] + Codes(Encode(more))
    ensures p * 4 + q / 16 == b && q % 16 * 16 + r / 4 == c && r % 4 * 64 + t == d
  {
    p, q, r, t := b / 4, b % 4 * 16 + c / 16, c % 16 * 4 + d / 64, d % 64;
    BitsBack(b, c, d);
    assert ([b, c, d] + more)[3..] == more;
  }

  lemma QuadThen(p: Sextet, q: Sextet, r: Sextet, t: Sextet, rest: seq<int>)
    ensures Decode([Code(p), Code(q), Code(r), Code(t)] + rest) ==
      if Decode(rest).None? then None else Some([p * 4 + q / 16, q % 16 * 16 + r / 4, r % 4 * 64 + t] + Decode(rest).value)
  {
    var s := [Code(p), Code(q), Code(r), Code(t)] + rest;
    assert s[..4] == [Code(p), Code(q), Code(r), Code(t)] && s[4..] == rest;
    DecodeQuad(s, p, q, r, t);
  }

  lemma ThreeBack(b: Byte, c: Byte, d: Byte, more: seq<Byte>)
    requires ComesBack(more)
    ensures ComesBack([b, c, d] + more)
  {
    var p, q, r, t := EncodeThree(b, c, d, more);
    var rest := Codes(Encode(more));
    QuadThen(p, q, r, t, rest);
  }

  lemma {:induction false} AllComeBack(b: seq<Byte>)
    ensures ComesBack(b)
    decreases |b|
  {
    if b == [] {
      assert Codes("") == [];
    } else if |b| == 1 {
      assert b == [b[0]];
    } else if |b| == 2 {
      TwoBack(b[0], b[1]);
      assert b == [b[0], b[1]];
    } else {
      var more := b[3..];
      assert b == [b[0], b[1], b[2]] + more;
      AllComeBack(more);
      ThreeBack(b[0], b[1], b[2], more);
    }
  }

  /** What was encoded decodes to what it was, whatever the bytes. */
  lemma DecodeOfEncode(b: seq<Byte>)
    ensures Decode(Codes(Encode(b))) == Some(b)
  {
    AllComeBack(b);
  }

  /** The alphabet of table 1 of RFC 4648: three runs of characters and two more;
      and three of the examples in its section 10. */
  lemma AsTheStandardHasIt(n: Sextet)
    ensures Symbol(0) == 'A' && Symbol(26) == 'a' && Symbol(52) == '0' && Symbol(62) == '+' && Symbol(63) == '/'
    ensures n > 0 && n !in {26, 52, 62, 63} ==> Symbol(n) as int == Symbol(n - 1) as int + 1
    ensures Encode([102]) == "Zg==" && Encode([102, 111]) == "Zm8=" && Encode([102, 111, 111, 98, 97, 114]) == "Zm9vYmFy"
  {
    assert [102, 111, 111, 98, 97, 114][3..] == [98, 97, 114];
    assert Encode([98, 97, 114]) == "YmFy";
  }
}
