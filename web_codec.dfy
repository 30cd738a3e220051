/**
 * Identifier codec of the browser component (web/components/EIP712SignatureComponent.jsx):
 * `toBytes12`, `concatToBytes32`, `createSubaccount`, `addressToBytes32`, and the two
 * ethers helpers they lean on, `arrayify`/`hexlify` for hex text and `getAddress` for
 * address validation.
 */
module WebCodec {
  import opened Outcomes
  import opened Bytes
  import Text
  import Hex
  import Ids

  /** The message V8 gives the RangeError of a typed-array `set` that would run past the end. */
  const RANGE_ERROR := "offset is out of bounds"

  /** `ethers.utils.hexlify` of a byte array: `0x` and two lower-case hex digits per byte. */
  function Hexlify(b: seq<Byte>): string
  {
    "0x" + Hex.Encode(b)
  }

  /**
   * `ethers.utils.arrayify` of a string: it must match /^0x[0-9A-Fa-f]*$/ and hold whole
   * bytes; either case of digit is accepted.
   */
  function Arrayify(s: string): (r: Result<seq<Byte>, string>)
    ensures r.Ok? <==> |s| >= 2 && s[..2] == "0x" && Hex.IsHex(s[2..]) && |s| % 2 == 0
    ensures r.Ok? ==> |r.value| == (|s| - 2) / 2
  {
    if |s| >= 2 && s[..2] == "0x" && Hex.IsHex(s[2..]) then
      if |s[2..]| % 2 == 1 then Err("hex data is odd-length") else Ok(Hex.Decode(s[2..]))
    else
      Err("invalid arrayify value")
  }

  /** `arrayify` undoes `hexlify`. */
  lemma ArrayifyHexlify(b: seq<Byte>)
    ensures Arrayify(Hexlify(b)) == Ok(b)
  {
    var s := Hexlify(b);
    assert s[..2] == "0x" && s[2..] == Hex.Encode(b);
    Hex.DecodeEncode(b);
  }

  /** `hexlify` undoes `arrayify` up to letter case: it gives back the lower-cased input. */
  lemma HexlifyArrayify(s: string)
    requires Arrayify(s).Ok?
    ensures Hexlify(Arrayify(s).value) == Text.ToLower(s)
  {
    var h := s[2..];
    assert s == "0x" + h;
    Text.ToLowerAppend("0x", h);
    Hex.DecodeIgnoresCase(h);
    Hex.ToLowerHex(h);
    Hex.EncodeDecode(Text.ToLower(h));
  }

  /**
   * `toBytes12`: a zeroed 12-byte `Uint8Array` into which the first min(len, 12) bytes of
   * the label are copied with `set`.
   */
  method ToBytes12(s: seq<Byte>) returns (r: seq<Byte>)
    ensures r == Ids.Label12(s)
  {
    var result := new Byte[12](_ => 0);
    var len := if |s| < 12 then |s| else 12;
    CopyInto(result, s[..len], 0);
    r := result[..];
  }

  /**
   * `concatToBytes32`: a zeroed 32-byte `Uint8Array`, the address `set` at offset 0 and the
   * name `set` at offset 20. Nothing checks the lengths: a longer address is overwritten
   * from byte 20 on, and a write past byte 32 throws a RangeError.
   */
  method ConcatToBytes32(address: seq<Byte>, name: seq<Byte>) returns (r: Result<seq<Byte>, string>)
    ensures r.Ok? <==> |address| <= 32 && |name| <= 12
    ensures r.Err? ==> r.error == RANGE_ERROR
    ensures r.Ok? ==> r.value == Placed(Placed(Zeros(32), address, 0), name, 20)
    ensures |address| == 20 && |name| == 12 ==> r == Ok(address + name)
  {
    var result := new Byte[32](_ => 0);
    if |address| > 32 {
      return Err(RANGE_ERROR);
    }
    CopyInto(result, address, 0);
    if 20 + |name| > 32 {
      return Err(RANGE_ERROR);
    }
    CopyInto(result, name, 20);
    r := Ok(result[..]);
    if |address| == 20 && |name| == 12 {
      PlacedPair(address, name);
    }
  }

  /**
   * `createSubaccount`: the hex text of the 32-byte subaccount id that pairs the address
   * with the label "default". The address text goes through `arrayify`, whose errors
   * propagate.
   */
  method CreateSubaccount(address: string) returns (r: Result<string, string>)
    ensures r.Ok? <==> Arrayify(address).Ok? && |Arrayify(address).value| <= 32
    ensures Arrayify(address).Err? ==> r == Err(Arrayify(address).error)
    ensures Arrayify(address).Ok? && |Arrayify(address).value| == 20 ==>
      r == Ok(Hexlify(Ids.SubaccountId(Arrayify(address).value, Ids.DEFAULT_LABEL)))
  {
    var addressBytes := Arrayify(address);
    if addressBytes.Err? {
      return Err(addressBytes.error);
    }
    var subaccountName := ToBytes12(Ids.DEFAULT_LABEL);
    var bytes32 := ConcatToBytes32(addressBytes.value, subaccountName);
    if bytes32.Err? {
      return Err(bytes32.error);
    }
    r := Ok(Hexlify(bytes32.value));
  }

  /** The text of the sender a "default" subaccount id decodes back to its address, "default" and five zeros. */
  lemma SubaccountText(a: Address)
    ensures |Hexlify(Ids.SubaccountId(a, Ids.DEFAULT_LABEL))| == 66
    ensures Arrayify(Hexlify(Ids.SubaccountId(a, Ids.DEFAULT_LABEL))) == Ok(a + Ids.DEFAULT_LABEL + Zeros(5))
  {
    Ids.DefaultSubaccount(a);
    ArrayifyHexlify(Ids.SubaccountId(a, Ids.DEFAULT_LABEL));
  }

  /**
   * `addressToBytes32`: lower-case, drop a leading `0x`, pad on the right with '0' to 64
   * digits, put `0x` back. Longer text is kept whole, never cut.
   */
  function AddressToBytes32(address: string): (r: string)
    ensures var c := Hex.StripPrefix(Text.ToLower(address));
      && |r| == 2 + (if |c| >= 64 then |c| else 64)
      && r[..2] == "0x"
      && r[2..2 + |c|] == c
      && forall i :: 2 + |c| <= i < |r| ==> r[i] == '0'
  {
    "0x" + Text.PadEnd(Hex.StripPrefix(Text.ToLower(address)), 64, '0')
  }

  /** Text that `/^(0x)?[0-9a-fA-F]{40}$/` accepts. */
  predicate IsAddressText(s: string)
  {
    (|s| == 40 && Hex.IsHex(s)) || (|s| == 42 && s[..2] == "0x" && Hex.IsHex(s[2..]))
  }

  function AddressDigits(s: string): (d: string)
    requires IsAddressText(s)
    ensures |d| == 40 && Hex.IsHex(d)
  {
    if |s| == 42 then s[2..] else s
  }

  /** Text that `/([A-F].*[a-f])|([a-f].*[A-F])/` finds: it mixes upper- and lower-case hex letters. */
  predicate MixedCase(s: string)
  {
    (exists i :: 0 <= i < |s| && 'A' <= s[i] <= 'F') && (exists j :: 0 <= j < |s| && 'a' <= s[j] <= 'f')
  }

  /**
   * `ethers.utils.getAddress`. The EIP-55 comparison of a mixed-case input with its checksum
   * is keccak-based and is the parameter `checksumOk`; all-lower and all-upper input skips it.
   */
  function GetAddress(s: string, checksumOk: bool): (r: Result<Address, string>)
    ensures r.Ok? <==> IsAddressText(s) && (checksumOk || !MixedCase(s))
    ensures !IsAddressText(s) ==> r == Err("invalid address")
    ensures IsAddressText(s) && MixedCase(s) && !checksumOk ==> r == Err("bad address checksum")
    ensures r.Ok? ==> Hexlify(r.value) == "0x" + Text.ToLower(AddressDigits(s))
  {
    if !IsAddressText(s) then Err("invalid address")
    else if MixedCase(s) && !checksumOk then Err("bad address checksum")
    else
      var d := AddressDigits(s);
      Hex.DecodeIgnoresCase(d);
      Hex.ToLowerHex(d);
      Hex.EncodeDecode(Text.ToLower(d));
      Ok(Hex.Decode(d))
  }

  /**
   * The text `getAddress` returns differs from `Hexlify(a)` only in letter case; every
   * consumer of it here ignores case, so the model carries `Hexlify(a)` in its place.
   */
  lemma CasingIrrelevant(a: Address, t: string)
    requires |t| >= 2 && t[..2] == "0x" && Text.ToLower(t) == Hexlify(a)
    ensures Arrayify(t) == Ok(a)
    ensures AddressToBytes32(t) == AddressToBytes32(Hexlify(a))
  {
    var h := t[2..];
    LowerPrefixed(t);
    assert Text.ToLower(h) == Hex.Encode(a);
    LowerIsHex(h);
    Hex.DecodeIgnoresCase(h);
    Hex.DecodeEncode(a);
    LowerHexlify(a);
  }

  lemma LowerPrefixed(t: string)
    requires |t| >= 2 && t[..2] == "0x"
    ensures Text.ToLower(t) == "0x" + Text.ToLower(t[2..])
  {
    assert t == "0x" + t[2..];
    Text.ToLowerAppend("0x", t[2..]);
  }

  /** Text whose lower-cased form is hex is hex itself. */
  lemma LowerIsHex(h: string)
    requires Hex.IsLowerHex(Text.ToLower(h))
    ensures Hex.IsHex(h)
  {
    forall i | 0 <= i < |h| ensures Hex.IsHexDigit(h[i]) {
      assert Hex.IsLowerHexDigit(Text.ToLower(h)[i]);
    }
  }

  lemma LowerHexlify(b: seq<Byte>)
    ensures Text.ToLower(Hexlify(b)) == Hexlify(b)
  {
  }

  /**
   * The signer text built from a valid address: its 40 digits, then 24 '0' digits, so 66
   * characters whose bytes are the signer id (address, then 12 zero bytes).
   */
  lemma SignerText(a: Address)
    ensures AddressToBytes32(Hexlify(a)) == Hexlify(Ids.SignerId(a))
    ensures |AddressToBytes32(Hexlify(a))| == 66
    ensures AddressToBytes32(Hexlify(a))[42..] == seq(24, _ => '0')
    ensures Arrayify(AddressToBytes32(Hexlify(a))) == Ok(Ids.SignerId(a))
  {
    LowerHexlify(a);
    assert Hex.StripPrefix(Hexlify(a)) == Hex.Encode(a);
    Hex.EncodeAppend(a, Zeros(12));
    Hex.EncodeZeros(12);
    ArrayifyHexlify(Ids.SignerId(a));
  }
}
