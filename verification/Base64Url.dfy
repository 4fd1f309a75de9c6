/**
 Unpadded base64url (app/core/controller.py, _b64 and _unb64; sections 3.2 and 5 of RFC 4648). Encoding drops the
 padding; decoding restores it and runs the lenient decoder, which skips foreign characters and stops at a complete
 padding.
 */
module Base64Url {
  import opened Base

  type Byte = x: int | 0 <= x < 256
  type Sextet = x: int | 0 <= x < 64

  function Digit(v: Sextet): char {
    if v < 26 then 'A' + v as char
    else if v < 52 then 'a' + (v - 26) as char
    else if v < 62 then '0' + (v - 52) as char
    else if v == 62 then '-' else '_'
  }

  /** Both alphabets are read, since the url-safe digits are translated to the standard ones first. */
  function Value(c: char): Option<Sextet> {
    if 'A' <= c <= 'Z' then Some(c as int - 'A' as int)
    else if 'a' <= c <= 'z' then Some(c as int - 'a' as int + 26)
    else if '0' <= c <= '9' then Some(c as int - '0' as int + 52)
    else if c == '-' || c == '+' then Some(62)
    else if c == '_' || c == '/' then Some(63)
    else None
  }

  lemma DigitHasItsValue(v: Sextet)
    ensures Value(Digit(v)) == Some(v) && Digit(v) != '=' && Digit(v) != '.'
  {
  }

  /** _b64: three bytes become four digits; a rest of one or two bytes becomes two or three. */
  function Encode(bytes: seq<Byte>): string {
    if bytes == [] then ""
    else if |bytes| == 1 then [Digit(bytes[0] / 4), Digit(bytes[0] % 4 * 16)]
    else if |bytes| == 2 then [Digit(bytes[0] / 4), Digit(bytes[0] % 4 * 16 + bytes[1] / 16), Digit(bytes[1] % 16 * 4)]
    else Quad(bytes[0], bytes[1], bytes[2]) + Encode(bytes[3..])
  }

  function Quad(a: Byte, b: Byte, c: Byte): string {
    [Digit(a / 4), Digit(a % 4 * 16 + b / 16), Digit(b % 16 * 4 + c / 64), Digit(c % 64)]
  }

  /** The decoder between two characters: digits of the current group, bits held over, and padding seen since the last
      digit. */
  datatype Scan = Scan(place: nat, left: int, pads: nat, out: seq<Byte>)

  predicate InGroup(s: Scan) {
    && s.place < 4
    && (s.place == 0 ==> s.left == 0) && (s.place == 1 ==> 0 <= s.left < 64)
    && (s.place == 2 ==> 0 <= s.left < 16) && (s.place == 3 ==> 0 <= s.left < 4)
  }

  function Take(s: Scan, v: Sextet): (r: Scan)
    requires InGroup(s)
    ensures InGroup(r)
  {
    match s.place
    case 0 => Scan(1, v, 0, s.out)
    case 1 => Scan(2, v % 16, 0, s.out + [s.left * 4 + v / 16])
    case 2 => Scan(3, v % 4, 0, s.out + [s.left * 16 + v / 4])
    case _ => Scan(0, 0, 0, s.out + [s.left * 64 + v])
  }

  /** None: the input ends inside a group that no padding completes. */
  function Decode(s: Scan, text: string): Option<seq<Byte>>
    requires InGroup(s)
    decreases |text|
  {
    if text == [] then if s.place == 0 then Some(s.out) else None
    else if text[0] == '=' then
      if s.place >= 2 && s.place + s.pads + 1 >= 4 then Some(s.out)
      else Decode(if s.place >= 2 then s.(pads := s.pads + 1) else s, text[1..])
    else if Value(text[0]).None? then Decode(s, text[1..])
    else Decode(Take(s, Value(text[0]).value), text[1..])
  }

  function Padding(n: nat): string {
    if n % 4 == 0 then "" else if n % 4 == 1 then "===" else if n % 4 == 2 then "==" else "="
  }

  /** _unb64. */
  function Unb64(text: string): Option<seq<Byte>> {
    Decode(Scan(0, 0, 0, []), text + Padding(|text|))
  }

  // ---------------------------------------------------------------- laws

  lemma Step(s: Scan, v: Sextet, rest: string)
    requires InGroup(s)
    ensures Decode(s, [Digit(v)] + rest) == Decode(Take(s, v), rest)
  {
    DigitHasItsValue(v);
    assert ([Digit(v)] + rest)[1..] == rest;
  }

  /** The digits of three bytes give back their bits. */
  lemma Bits(a: Byte, b: Byte, c: Byte)
    ensures var v0, v1, v2, v3 := a / 4, a % 4 * 16 + b / 16, b % 16 * 4 + c / 64, c % 64;
            && 0 <= v0 < 64 && 0 <= v1 < 64 && 0 <= v2 < 64 && 0 <= v3 < 64
            && v0 * 4 + v1 / 16 == a && v1 % 16 * 16 + v2 / 4 == b && v2 % 4 * 64 + v3 == c
            && v1 % 16 == b / 16 && v2 % 4 == c / 64
  {
  }

  lemma ThreeDigits(out: seq<Byte>, a: Byte, b: Byte, v2: Sextet, rest: string)
    requires v2 / 4 == b % 16
    ensures Decode(Scan(0, 0, 0, out), [Digit(a / 4)] + ([Digit(a % 4 * 16 + b / 16)] + ([Digit(v2)] + rest))) ==
            Decode(Scan(3, v2 % 4, 0, out + [a, b]), rest)
  {
    Bits(a, b, 0);
    var v0, v1 := a / 4, a % 4 * 16 + b / 16;
    var s0 := Scan(0, 0, 0, out);
    var s1 := Scan(1, v0, 0, out);
    var s2 := Scan(2, b / 16, 0, out + [a]);
    var s3 := Scan(3, v2 % 4, 0, out + [a, b]);
    assert Take(s0, v0) == s1 && Take(s1, v1) == s2;
    assert Take(s2, v2) == s3 by { assert out + [a] + [b] == out + [a, b]; }
    hide Decode, Digit;
    Step(s0, v0, [Digit(v1)] + ([Digit(v2)] + rest));
    Step(s1, v1, [Digit(v2)] + rest);
    Step(s2, v2, rest);
  }

  lemma Group(out: seq<Byte>, a: Byte, b: Byte, c: Byte, rest: string)
    ensures Decode(Scan(0, 0, 0, out), Quad(a, b, c) + rest) == Decode(Scan(0, 0, 0, out + [a, b, c]), rest)
  {
    Bits(a, b, c);
    var v0, v1, v2, v3 := a / 4, a % 4 * 16 + b / 16, b % 16 * 4 + c / 64, c % 64;
    assert Take(Scan(3, v2 % 4, 0, out + [a, b]), v3) == Scan(0, 0, 0, out + [a, b, c]) by {
      assert out + [a, b] + [c] == out + [a, b, c];
    }
    hide Decode, Digit;
    assert Quad(a, b, c) + rest == [Digit(v0)] + ([Digit(v1)] + ([Digit(v2)] + ([Digit(v3)] + rest)));
    ThreeDigits(out, a, b, v2, [Digit(v3)] + rest);
    Step(Scan(3, v2 % 4, 0, out + [a, b]), v3, rest);
  }

  lemma OneLeft(out: seq<Byte>, a: Byte)
    ensures Decode(Scan(0, 0, 0, out), Encode([a]) + "==") == Some(out + [a])
  {
    var v0, v1 := a / 4, a % 4 * 16;
    var s1 := Take(Scan(0, 0, 0, out), v0);
    var s2 := Take(s1, v1);
    assert Encode([a]) + "==" == [Digit(v0)] + ([Digit(v1)] + "==");
    Step(Scan(0, 0, 0, out), v0, [Digit(v1)] + "==");
    Step(s1, v1, "==");
    assert s2 == Scan(2, 0, 0, out + [a]);
    assert "=="[1..] == "=";
    assert Decode(s2, "==") == Decode(s2.(pads := 1), "=") == Some(out + [a]);
  }

  lemma TwoLeft(out: seq<Byte>, a: Byte, b: Byte)
    ensures Decode(Scan(0, 0, 0, out), Encode([a, b]) + "=") == Some(out + [a, b])
  {
    Bits(a, b, 0);
    assert Decode(Scan(3, 0, 0, out + [a, b]), "=") == Some(out + [a, b]);
    assert Encode([a, b]) == [Digit(a / 4), Digit(a % 4 * 16 + b / 16), Digit(b % 16 * 4)];
    hide Decode, Digit, Encode;
    assert Encode([a, b]) + "=" == [Digit(a / 4)] + ([Digit(a % 4 * 16 + b / 16)] + ([Digit(b % 16 * 4)] + "="));
    ThreeDigits(out, a, b, b % 16 * 4, "=");
  }

  /** What is missing to a whole number of groups. */
  function Missing(n: nat): string {
    if n % 3 == 0 then "" else if n % 3 == 1 then "==" else "="
  }

  lemma {:induction false} EncodedLength(bytes: seq<Byte>, groups: nat)
    requires |bytes| / 3 == groups
    ensures |Encode(bytes)| == groups * 4 + (if |bytes| % 3 == 0 then 0 else |bytes| % 3 + 1)
    decreases |bytes|
  {
    if |bytes| >= 3 {
      EncodedLength(bytes[3..], groups - 1);
    }
  }

  lemma GroupsAndRest(groups: nat, rest: nat)
    requires rest < 4
    ensures (groups * 4 + rest) % 4 == rest
  {
  }

  /** The padding put back is the one taken off: at most two signs, and a whole number of groups. */
  lemma PaddingIsLegal(bytes: seq<Byte>)
    ensures (|Encode(bytes)| + |Padding(|Encode(bytes)|)|) % 4 == 0 && |Padding(|Encode(bytes)|)| <= 2
    ensures Padding(|Encode(bytes)|) == Missing(|bytes|)
  {
    var groups, rest := |bytes| / 3, if |bytes| % 3 == 0 then 0 else |bytes| % 3 + 1;
    EncodedLength(bytes, groups);
    GroupsAndRest(groups, rest);
    hide Encode;
    if rest != 0 {
      GroupsAndRest(groups + 1, 0);
    }
  }

  lemma ShortDecodesBack(out: seq<Byte>, bytes: seq<Byte>)
    requires |bytes| < 3
    ensures Decode(Scan(0, 0, 0, out), Encode(bytes) + Missing(|bytes|)) == Some(out + bytes)
  {
    assert Missing(0) == "" && Missing(1) == "==" && Missing(2) == "=";
    assert Encode([]) + "" == "" && Decode(Scan(0, 0, 0, out), "") == Some(out);
    hide Decode, Encode, Missing;
    if |bytes| == 0 {
      assert out + bytes == out && bytes == [];
    } else if |bytes| == 1 {
      assert bytes == [bytes[0]];
      OneLeft(out, bytes[0]);
    } else {
      assert bytes == [bytes[0], bytes[1]];
      TwoLeft(out, bytes[0], bytes[1]);
    }
  }

  lemma {:induction false} DecodesBack(out: seq<Byte>, bytes: seq<Byte>)
    ensures Decode(Scan(0, 0, 0, out), Encode(bytes) + Missing(|bytes|)) == Some(out + bytes)
    decreases |bytes|
  {
    hide Decode, Missing, Quad, Digit;
    if |bytes| < 3 {
      hide Encode;
      ShortDecodesBack(out, bytes);
    } else {
      var a, b, c, rest := bytes[0], bytes[1], bytes[2], bytes[3..];
      assert Encode(bytes) == Quad(a, b, c) + Encode(rest);
      hide Encode;
      SameRest(|rest|);
      Group(out, a, b, c, Encode(rest) + Missing(|rest|));
      assert Encode(bytes) + Missing(|bytes|) == Quad(a, b, c) + (Encode(rest) + Missing(|rest|));
      DecodesBack(out + [a, b, c], rest);
      assert out + bytes == out + [a, b, c] + rest;
    }
  }

  lemma SameRest(n: nat)
    ensures Missing(n + 3) == Missing(n)
  {
  }

  /** _unb64(_b64(x)) == x for every byte string. */
  lemma RoundTrip(bytes: seq<Byte>)
    ensures Unb64(Encode(bytes)) == Some(bytes)
  {
    PaddingIsLegal(bytes);
    DecodesBack([], bytes);
    assert [] + bytes == bytes;
  }

  lemma EncodingIsInjective(a: seq<Byte>, b: seq<Byte>)
    requires Encode(a) == Encode(b)
    ensures a == b
  {
    RoundTrip(a);
    RoundTrip(b);
  }

  lemma {:induction false} NoDots(bytes: seq<Byte>)
    ensures '.' !in Encode(bytes) && '=' !in Encode(bytes)
    decreases |bytes|
  {
    forall v: Sextet ensures Digit(v) != '.' && Digit(v) != '=' {
      DigitHasItsValue(v);
    }
    if |bytes| >= 3 {
      NoDots(bytes[3..]);
    }
  }

  /** token.split(".", 1). */
  function SplitAtDot(token: string): Option<(string, string)> {
    if token == "" then None
    else if token[0] == '.' then Some(("", token[1..]))
    else
      var rest := SplitAtDot(token[1..]);
      if rest.None? then None else Some(([token[0]] + rest.value.0, rest.value.1))
  }

  lemma {:induction false} SplitsAtFirstDot(head: string, tail: string)
    requires '.' !in head
    ensures SplitAtDot(head + "." + tail) == Some((head, tail))
  {
    var token := head + "." + tail;
    if head == "" {
      assert token[1..] == tail;
    } else {
      assert token[0] == head[0] && token[1..] == head[1..] + "." + tail;
      SplitsAtFirstDot(head[1..], tail);
      assert head == [head[0]] + head[1..];
    }
  }

  /** A token splits back into exactly the payload and the signature it was made of. */
  lemma TokenSplitsBack(payload: seq<Byte>, signature: seq<Byte>)
    ensures var parts := SplitAtDot(Encode(payload) + "." + Encode(signature));
            parts.Some? && Unb64(parts.value.0) == Some(payload) && Unb64(parts.value.1) == Some(signature)
  {
    NoDots(payload);
    SplitsAtFirstDot(Encode(payload), Encode(signature));
    RoundTrip(payload);
    RoundTrip(signature);
  }

  /** Test vectors of section 10 of RFC 4648, without their padding. */
  lemma TestVectors()
    ensures Encode([0x66]) == "Zg" && Encode([0x66, 0x6f]) == "Zm8" && Encode([0x66, 0x6f, 0x6f]) == "Zm9v"
  {
    var foo: seq<Byte> := [0x66, 0x6f, 0x6f];
    assert foo[3..] == [];
  }
}
