/**
 * The browser's `atob`: forgiving base64 decoding over the standard
 * alphabet of section 4 of RFC 4648, as the WHATWG Infra standard defines
 * it. The result is a "binary string": one character per decoded byte,
 * modelled here as the byte values themselves. `Encode` is the padded
 * encoder (`btoa`, and what `FileReader.readAsDataURL` writes after the
 * comma); `DecodeEncode` proves that decoding undoes it.
 */
module Base64 {
  import opened JsValues

  newtype byte = x: int | 0 <= x < 256

  predicate IsAlphabetChar(c: char) {
    ('A' <= c <= 'Z') || ('a' <= c <= 'z') || ('0' <= c <= '9') || c == '+' || c == '/'
  }

  /** The 6-bit value of an alphabet character. */
  function SextetOf(c: char): (v: nat)
    requires IsAlphabetChar(c)
    ensures v < 64
  {
    if 'A' <= c <= 'Z' then (c as int) - ('A' as int)
    else if 'a' <= c <= 'z' then (c as int) - ('a' as int) + 26
    else if '0' <= c <= '9' then (c as int) - ('0' as int) + 52
    else if c == '+' then 62
    else 63
  }

  /** The alphabet character of a 6-bit value. */
  function CharOf(v: nat): (c: char)
    requires v < 64
    ensures IsAlphabetChar(c) && SextetOf(c) == v
  {
    if v < 26 then ((v + 'A' as int) as char)
    else if v < 52 then ((v - 26 + 'a' as int) as char)
    else if v < 62 then ((v - 52 + '0' as int) as char)
    else if v == 62 then '+'
    else '/'
  }

  /** ASCII whitespace: TAB, LF, FF, CR and SPACE. */
  predicate IsAsciiWhitespace(c: char) {
    c == '\t' || c == '\n' || c == '\U{C}' || c == '\r' || c == ' '
  }

  function StripWhitespace(s: string): (r: string)
    ensures forall i :: 0 <= i < |r| ==> !IsAsciiWhitespace(r[i])
    ensures (forall i :: 0 <= i < |s| ==> !IsAsciiWhitespace(s[i])) ==> r == s
  {
    if |s| == 0 then []
    else if IsAsciiWhitespace(s[0]) then StripWhitespace(s[1..])
    else [s[0]] + StripWhitespace(s[1..])
  }

  /** Drop one or two trailing `=` (applied only when the length is a multiple of four). */
  function StripPadding(s: string): (r: string)
    ensures |r| <= |s|
  {
    if |s| >= 2 && s[|s| - 2..] == "==" then s[..|s| - 2]
    else if |s| >= 1 && s[|s| - 1] == '=' then s[..|s| - 1]
    else s
  }

  predicate AllAlphabet(s: string) {
    forall i :: 0 <= i < |s| ==> IsAlphabetChar(s[i])
  }

  /** Bytes of a run of alphabet characters whose length is not 1 modulo 4. */
  function DecodeBody(s: string): (r: seq<byte>)
    requires AllAlphabet(s) && |s| % 4 != 1
  {
    if |s| == 0 then []
    else if |s| == 2 then DecodeTail2(s[0], s[1])
    else if |s| == 3 then DecodeTail3(s[0], s[1], s[2])
    else DecodeQuad(s[0], s[1], s[2], s[3]) + DecodeBody(s[4..])
  }

  /** Four characters: 24 bits, three bytes. */
  function DecodeQuad(p: char, q: char, r: char, t: char): seq<byte>
    requires IsAlphabetChar(p) && IsAlphabetChar(q) && IsAlphabetChar(r) && IsAlphabetChar(t)
  {
    var a, b, c, d := SextetOf(p), SextetOf(q), SextetOf(r), SextetOf(t);
    [(a * 4 + b / 16) as byte, ((b % 16) * 16 + c / 4) as byte, ((c % 4) * 64 + d) as byte]
  }

  /** Two trailing characters: 12 bits, one byte, the low 4 bits discarded. */
  function DecodeTail2(p: char, q: char): seq<byte>
    requires IsAlphabetChar(p) && IsAlphabetChar(q)
  {
    [(SextetOf(p) * 4 + SextetOf(q) / 16) as byte]
  }

  /** Three trailing characters: 18 bits, two bytes, the low 2 bits discarded. */
  function DecodeTail3(p: char, q: char, r: char): seq<byte>
    requires IsAlphabetChar(p) && IsAlphabetChar(q) && IsAlphabetChar(r)
  {
    var a, b, c := SextetOf(p), SextetOf(q), SextetOf(r);
    [(a * 4 + b / 16) as byte, ((b % 16) * 16 + c / 4) as byte]
  }

  /** `atob(s)`; `None` where `atob` throws an InvalidCharacterError. */
  function Atob(s: string): Option<seq<byte>> {
    var d := StripWhitespace(s);
    var body := if |d| % 4 == 0 then StripPadding(d) else d;
    if |body| % 4 == 1 || !AllAlphabet(body) then None
    else Some(DecodeBody(body))
  }

  /** Unpadded base64 of `b`. */
  function EncodeBody(b: seq<byte>): (r: string)
    ensures AllAlphabet(r)
  {
    if |b| == 0 then []
    else if |b| == 1 then EncodeTail1(b[0])
    else if |b| == 2 then EncodeTail2(b[0], b[1])
    else EncodeGroup(b[0], b[1], b[2]) + EncodeBody(b[3..])
  }

  function EncodeGroup(x: byte, y: byte, z: byte): (r: string)
    ensures |r| == 4 && AllAlphabet(r)
  {
    var x, y, z := x as nat, y as nat, z as nat;
    [CharOf(x / 4), CharOf((x % 4) * 16 + y / 16), CharOf((y % 16) * 4 + z / 64), CharOf(z % 64)]
  }

  function EncodeTail1(x: byte): (r: string)
    ensures |r| == 2 && AllAlphabet(r)
  {
    var x := x as nat;
    [CharOf(x / 4), CharOf((x % 4) * 16)]
  }

  function EncodeTail2(x: byte, y: byte): (r: string)
    ensures |r| == 3 && AllAlphabet(r)
  {
    var x, y := x as nat, y as nat;
    [CharOf(x / 4), CharOf((x % 4) * 16 + y / 16), CharOf((y % 16) * 4)]
  }

  /** The `=` padding that completes an encoding to a multiple of four characters. */
  function Padding(n: nat): string {
    if n % 3 == 1 then "==" else if n % 3 == 2 then "=" else ""
  }

  /** Padded base64 of `b` (section 4 of RFC 4648). */
  function Encode(b: seq<byte>): string {
    EncodeBody(b) + Padding(|b|)
  }

  lemma ShiftResidue(n: nat)
    ensures (n + 3) % 3 == n % 3 && (n + 4) % 4 == n % 4
  {
  }

  /** Length of an unpadded encoding: four characters per full group, then 0, 2 or 3. */
  lemma {:induction false} EncodeBodyLength(b: seq<byte>)
    ensures |EncodeBody(b)| % 4 == (if |b| % 3 == 0 then 0 else |b| % 3 + 1)
    decreases |b|
  {
    if |b| >= 3 {
      EncodeBodyLength(b[3..]);
      ShiftResidue(|b[3..]|);
      ShiftResidue(|EncodeBody(b[3..])|);
    }
  }

  /** The bit arithmetic of one group: three bytes to four sextets and back. */
  lemma GroupArithmetic(x: nat, y: nat, z: nat)
    requires x < 256 && y < 256 && z < 256
    ensures (x / 4) * 4 + ((x % 4) * 16 + y / 16) / 16 == x
    ensures (((x % 4) * 16 + y / 16) % 16) * 16 + ((y % 16) * 4 + z / 64) / 4 == y
    ensures (((y % 16) * 4 + z / 64) % 4) * 64 + z % 64 == z
  {
    assert ((x % 4) * 16 + y / 16) / 16 == x % 4;
    assert ((x % 4) * 16 + y / 16) % 16 == y / 16;
    assert ((y % 16) * 4 + z / 64) / 4 == y % 16;
    assert ((y % 16) * 4 + z / 64) % 4 == z / 64;
  }

  lemma GroupRoundTrip(x: byte, y: byte, z: byte)
    ensures var e := EncodeGroup(x, y, z); DecodeQuad(e[0], e[1], e[2], e[3]) == [x, y, z]
  {
    GroupArithmetic(x as nat, y as nat, z as nat);
  }

  lemma TailRoundTrip(x: byte, y: byte)
    ensures var e := EncodeTail1(x); DecodeTail2(e[0], e[1]) == [x]
    ensures var e := EncodeTail2(x, y); DecodeTail3(e[0], e[1], e[2]) == [x, y]
  {
    GroupArithmetic(x as nat, y as nat, 0);
  }

  lemma {:induction false} DecodeEncodeBody(b: seq<byte>)
    ensures |EncodeBody(b)| % 4 != 1
    ensures DecodeBody(EncodeBody(b)) == b
    decreases |b|
  {
    EncodeBodyLength(b);
    var e := EncodeBody(b);
    if |b| >= 3 {
      var g := EncodeGroup(b[0], b[1], b[2]);
      var rest := EncodeBody(b[3..]);
      DecodeEncodeBody(b[3..]);
      GroupRoundTrip(b[0], b[1], b[2]);
      assert e == g + rest;
      assert e[..4] == g && e[4..] == rest;
      assert DecodeBody(e) == DecodeQuad(g[0], g[1], g[2], g[3]) + DecodeBody(rest);
      assert b == [b[0], b[1], b[2]] + b[3..];
    } else if |b| == 2 {
      TailRoundTrip(b[0], b[1]);
      assert b == [b[0], b[1]];
    } else if |b| == 1 {
      TailRoundTrip(b[0], 0);
      assert b == [b[0]];
    }
  }

  lemma EncodeHasNoWhitespace(b: seq<byte>)
    ensures StripWhitespace(Encode(b)) == Encode(b)
  {
    var body, e := EncodeBody(b), Encode(b);
    forall i | 0 <= i < |e| ensures !IsAsciiWhitespace(e[i]) {
      if i < |body| { assert e[i] == body[i]; } else { assert e[i] == '='; }
    }
  }

  lemma PaddedResidue(n: nat, p: nat)
    requires (n % 4 == 0 && p == 0) || (n % 4 == 2 && p == 2) || (n % 4 == 3 && p == 1)
    ensures (n + p) % 4 == 0
  {
  }

  /** The padding brings the length to a multiple of four, and stripping it gives the body back. */
  lemma EncodePaddingStrips(b: seq<byte>)
    ensures |Encode(b)| % 4 == 0
    ensures StripPadding(Encode(b)) == EncodeBody(b)
  {
    var body, e := EncodeBody(b), Encode(b);
    EncodeBodyLength(b);
    PaddedResidue(|body|, |Padding(|b|)|);
    assert e == body + Padding(|b|);
    if |b| % 3 == 1 {
      PadTwo(body);
    } else if |b| % 3 == 2 {
      PadOne(body);
    } else {
      PadNone(body);
    }
  }

  lemma PadTwo(body: string)
    ensures StripPadding(body + "==") == body
  {
    var e := body + "==";
    assert e[|e| - 2..] == "==" && e[..|e| - 2] == body;
  }

  lemma PadOne(body: string)
    requires AllAlphabet(body) && |body| > 0
    ensures StripPadding(body + "=") == body
  {
    var e := body + "=";
    assert e[|e| - 2] == body[|body| - 1];
    assert e[|e| - 2..] != "==" by { assert e[|e| - 2..][0] == e[|e| - 2]; }
    assert e[..|e| - 1] == body;
  }

  lemma PadNone(body: string)
    requires AllAlphabet(body)
    ensures StripPadding(body + "") == body
  {
    var e := body + "";
    assert e == body;
    if |e| >= 2 {
      assert e[|e| - 2..][1] == e[|e| - 1];
    }
  }

  /** Decoding undoes encoding: `atob(btoa(b)) == b`. */
  lemma DecodeEncode(b: seq<byte>)
    ensures Atob(Encode(b)) == Some(b)
  {
    var body, e := EncodeBody(b), Encode(b);
    DecodeEncodeBody(b);
    EncodeHasNoWhitespace(b);
    EncodePaddingStrips(b);
    assert Atob(e) == Some(DecodeBody(body));
  }
}
