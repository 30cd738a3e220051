/** Hexadecimal text for byte strings (`hex::encode`, `hexlify`, and the digit parsing behind `arrayify` and `Address::from_str`). */
module Hex {
  import opened Bytes
  import Text

  predicate IsHexDigit(c: char) { '0' <= c <= '9' || 'a' <= c <= 'f' || 'A' <= c <= 'F' }

  predicate IsLowerHexDigit(c: char) { '0' <= c <= '9' || 'a' <= c <= 'f' }

  predicate IsHex(s: string) { forall i :: 0 <= i < |s| ==> IsHexDigit(s[i]) }

  predicate IsLowerHex(s: string) { forall i :: 0 <= i < |s| ==> IsLowerHexDigit(s[i]) }

  function DigitValue(c: char): (v: nat)
    requires IsHexDigit(c)
    ensures v < 16
  {
    if '0' <= c <= '9' then c as int - '0' as int
    else if 'a' <= c <= 'f' then c as int - 'a' as int + 10
    else c as int - 'A' as int + 10
  }

  function Digit(v: nat): (c: char)
    requires v < 16
    ensures IsLowerHexDigit(c) && DigitValue(c) == v
  {
    if v < 10 then ('0' as int + v) as char else ('a' as int + v - 10) as char
  }

  /** Two lower-case hex digits per byte, most significant nibble first, no prefix. */
  function Encode(b: seq<Byte>): (s: string)
    ensures |s| == 2 * |b|
    ensures IsLowerHex(s)
  {
    if b == [] then "" else [Digit(b[0] / 16), Digit(b[0] % 16)] + Encode(b[1..])
  }

  /** The bytes an even-length string of hex digits (either case) denotes. */
  function Decode(s: string): (b: seq<Byte>)
    requires IsHex(s) && |s| % 2 == 0
    ensures |b| == |s| / 2
  {
    if s == [] then [] else [DigitValue(s[0]) * 16 + DigitValue(s[1])] + Decode(s[2..])
  }

  /** Decoding undoes encoding. */
  lemma {:induction false} DecodeEncode(b: seq<Byte>)
    ensures Decode(Encode(b)) == b
  {
    if b != [] {
      var s := Encode(b);
      assert s[2..] == Encode(b[1..]);
      DecodeEncode(b[1..]);
    }
  }

  /** Encoding undoes decoding on lower-case text. */
  lemma {:induction false} EncodeDecode(s: string)
    requires IsLowerHex(s) && |s| % 2 == 0
    ensures Encode(Decode(s)) == s
  {
    if s != [] {
      EncodeDecode(s[2..]);
      var b := Decode(s);
      assert b[1..] == Decode(s[2..]);
    }
  }

  /** Letter case does not change the decoded bytes. */
  lemma {:induction false} DecodeIgnoresCase(s: string)
    requires IsHex(s) && |s| % 2 == 0
    ensures IsHex(Text.ToLower(s))
    ensures Decode(Text.ToLower(s)) == Decode(s)
  {
    if s != [] {
      var t := Text.ToLower(s);
      assert t[2..] == Text.ToLower(s[2..]);
      DecodeIgnoresCase(s[2..]);
    }
  }

  /** Lower-casing hex text makes it lower-case hex. */
  lemma ToLowerHex(s: string)
    requires IsHex(s)
    ensures IsLowerHex(Text.ToLower(s))
  {
  }

  /** Encoding works byte by byte, so it distributes over concatenation. */
  lemma {:induction false} EncodeAppend(a: seq<Byte>, b: seq<Byte>)
    ensures Encode(a + b) == Encode(a) + Encode(b)
  {
    if a == [] {
      assert a + b == b;
    } else {
      assert (a + b)[0] == a[0] && (a + b)[1..] == a[1..] + b;
      EncodeAppend(a[1..], b);
    }
  }

  /** Zero bytes encode as twice as many '0' digits. */
  lemma {:induction false} EncodeZeros(n: nat)
    ensures Encode(Zeros(n)) == seq(2 * n, _ => '0')
  {
    if n > 0 {
      assert Zeros(n)[1..] == Zeros(n - 1);
      EncodeZeros(n - 1);
    }
  }

  /**
   * Drops one leading `0x`, if there is one: `s.replace(/^0x/, '')` in JavaScript and
   * `s.strip_prefix("0x").unwrap_or(s)` in Rust.
   */
  function StripPrefix(s: string): (r: string)
    ensures |s| >= 2 && s[..2] == "0x" ==> s == "0x" + r
    ensures !(|s| >= 2 && s[..2] == "0x") ==> r == s
  {
    if |s| >= 2 && s[..2] == "0x" then s[2..] else s
  }
}
