/**
 * The wasm `EIP712Signer` (src/lib.rs): a signer holds one immutable EIP-712 domain, built
 * by `new` from a decimal chain id and the chain's verifying contract, and `get_typed_data`
 * turns a sender, a signer and a nonce into the `LinkSigner` typed-data document.
 */
module WasmSigner {
  import opened Outcomes
  import opened Bytes
  import Text
  import Hex
  import Ids
  import opened Eip712
  import WasmCodec

  // ---------------------------------------------------------------------------------------
  // `U256::from_dec_str`
  // ---------------------------------------------------------------------------------------

  /** The two ways `U256::from_dec_str` fails. */
  datatype DecStrError = InvalidCharacter | InvalidLength

  /** The `Display` text of a decimal-parse error, which `new` and `get_typed_data` put after their own prefix. */
  function DecStrErrorText(e: DecStrError): (t: string)
    ensures |t| > 0
  {
    match e
    case InvalidCharacter => "a character is not in the range 0-9"
    case InvalidLength => "the number is too large for the type"
  }

  /**
   * The digit loop of `from_dec_str`, left to right from the value `acc` read so far: a
   * non-digit stops it with `InvalidCharacter`, a value that no longer fits in 256 bits
   * with `InvalidLength`, whichever comes first.
   */
  function Scan(s: string, acc: nat): (r: Result<nat, DecStrError>)
    requires acc < U256_LIMIT
    ensures r.Ok? ==> Text.AllDigits(s) && acc <= r.value < U256_LIMIT
    decreases |s|
  {
    if s == [] then Ok(acc)
    else if !Text.IsDigit(s[0]) then Err(InvalidCharacter)
    else
      var next := acc * 10 + (s[0] as int - '0' as int);
      if next >= U256_LIMIT then Err(InvalidLength)
      else
        var r := Scan(s[1..], next);
        assert r.Ok? ==> s == [s[0]] + s[1..];
        r
  }

  /** `U256::from_dec_str`: the empty text reads as 0. */
  function FromDecStr(s: string): Result<nat, DecStrError>
  {
    Scan(s, 0)
  }

  /** The value of digits `s` read left to right after the value `acc`. */
  function Fold(acc: nat, s: string): nat
    requires Text.AllDigits(s)
    decreases |s|
  {
    if s == [] then acc else Fold(acc * 10 + (s[0] as int - '0' as int), s[1..])
  }

  lemma {:induction false} FoldSnoc(acc: nat, s: string, c: char)
    requires Text.AllDigits(s) && Text.IsDigit(c)
    ensures Text.AllDigits(s + [c])
    decreases |s|
    ensures Fold(acc, s + [c]) == Fold(acc, s) * 10 + (c as int - '0' as int)
  {
    if s != [] {
      assert (s + [c])[1..] == s[1..] + [c];
      FoldSnoc(acc * 10 + (s[0] as int - '0' as int), s[1..], c);
    }
  }

  /** Reading left to right from 0 gives the value of the numeral. */
  lemma {:induction false} FoldFromZero(s: string)
    requires Text.AllDigits(s)
    ensures Fold(0, s) == Text.DigitsValue(s)
  {
    if s != [] {
      var init := s[..|s| - 1];
      assert s == init + [s[|s| - 1]];
      FoldFromZero(init);
      FoldSnoc(0, init, s[|s| - 1]);
    }
  }

  lemma {:induction false} FoldAtLeast(acc: nat, s: string)
    requires Text.AllDigits(s)
    ensures Fold(acc, s) >= acc
    decreases |s|
  {
    if s != [] {
      FoldAtLeast(acc * 10 + (s[0] as int - '0' as int), s[1..]);
    }
  }

  /** On digits, the loop fails only when the final value does not fit: no intermediate value is larger. */
  lemma {:induction false} ScanDigits(s: string, acc: nat)
    requires acc < U256_LIMIT && Text.AllDigits(s)
    ensures Scan(s, acc) == if Fold(acc, s) < U256_LIMIT then Ok(Fold(acc, s)) else Err(InvalidLength)
  {
    if s != [] {
      var next := acc * 10 + (s[0] as int - '0' as int);
      if next >= U256_LIMIT {
        FoldAtLeast(next, s[1..]);
      } else {
        ScanDigits(s[1..], next);
      }
    }
  }

  /**
   * `from_dec_str` on digits: the number they denote when it is below 2^256, `InvalidLength`
   * otherwise; any other text is rejected, with `InvalidCharacter` when the non-digit comes
   * before the digits overflow.
   */
  lemma FromDecStrSpec(s: string)
    ensures FromDecStr(s).Ok? ==> Text.AllDigits(s)
    ensures Text.AllDigits(s) ==>
      FromDecStr(s) == if Text.DigitsValue(s) < U256_LIMIT then Ok(Text.DigitsValue(s)) else Err(InvalidLength)
  {
    if Text.AllDigits(s) {
      ScanDigits(s, 0);
      FoldFromZero(s);
    }
  }

  /** A non-digit after digits that still fit stops the loop with `InvalidCharacter`. */
  lemma {:induction false} FromDecStrBadCharacter(digits: string, c: char, rest: string)
    requires Text.AllDigits(digits) && Text.DigitsValue(digits) < U256_LIMIT && !Text.IsDigit(c)
    ensures FromDecStr(digits + [c] + rest) == Err(InvalidCharacter)
  {
    FoldFromZero(digits);
    ScanStopsAt(digits, c, rest, 0);
  }

  lemma {:induction false} ScanStopsAt(digits: string, c: char, rest: string, acc: nat)
    requires acc < U256_LIMIT && Text.AllDigits(digits) && Fold(acc, digits) < U256_LIMIT && !Text.IsDigit(c)
    ensures Scan(digits + [c] + rest, acc) == Err(InvalidCharacter)
  {
    if digits == [] {
      assert digits + [c] + rest == [c] + rest;
    } else {
      var next := acc * 10 + (digits[0] as int - '0' as int);
      FoldAtLeast(next, digits[1..]);
      assert (digits + [c] + rest)[1..] == digits[1..] + [c] + rest;
      ScanStopsAt(digits[1..], c, rest, next);
    }
  }

  /** `to_string` and `from_dec_str` are inverse on `U256` values. */
  lemma DecimalRoundTrip(n: nat)
    requires n < U256_LIMIT
    ensures FromDecStr(Text.DecimalString(n)) == Ok(n)
  {
    FromDecStrSpec(Text.DecimalString(n));
    Text.DecimalRoundTrip(n);
  }

  // ---------------------------------------------------------------------------------------
  // `Address` (H160): parsing and `{:?}`
  // ---------------------------------------------------------------------------------------

  /**
   * `str::parse::<Address>()`: one optional leading `0x`, then exactly 40 hex digits of
   * either case. No EIP-55 checksum is checked.
   */
  function ParseAddress(s: string): (r: Option<Address>)
    ensures r.Some? <==> |Hex.StripPrefix(s)| == 40 && Hex.IsHex(Hex.StripPrefix(s))
  {
    var h := Hex.StripPrefix(s);
    if |h| == 40 && Hex.IsHex(h) then Some(Hex.Decode(h)) else None
  }

  /** `format!("{:?}", address)`: `0x` and all 40 digits in lower case. */
  function DebugAddress(a: Address): (t: string)
    ensures |t| == 42 && t[..2] == "0x" && Hex.IsLowerHex(t[2..])
  {
    "0x" + Hex.Encode(a)
  }

  /** Printing an address and parsing it back gives the address. */
  lemma ParseDebug(a: Address)
    ensures ParseAddress(DebugAddress(a)) == Some(a)
  {
    assert Hex.StripPrefix(DebugAddress(a)) == Hex.Encode(a);
    Hex.DecodeEncode(a);
  }

  /** Parsing accepts either letter case and keeps the address; printing gives its lower-case form. */
  lemma DebugParse(s: string)
    requires ParseAddress(s).Some?
    ensures DebugAddress(ParseAddress(s).value) == "0x" + Text.ToLower(Hex.StripPrefix(s))
  {
    var h := Hex.StripPrefix(s);
    Hex.DecodeIgnoresCase(h);
    Hex.ToLowerHex(h);
    Hex.EncodeDecode(Text.ToLower(h));
  }

  // ---------------------------------------------------------------------------------------
  // `EIP712Signer::new` and `get_contract_address`
  // ---------------------------------------------------------------------------------------

  /** The `EIP712Domain` struct. */
  datatype Domain = Domain(name: string, version: string, chainId: nat, verifyingContract: Address)

  /** The `EIP712Signer` struct: one domain, never changed after `new`. */
  datatype Signer = Signer(domain: Domain)

  /**
   * Why `new` or `get_typed_data` gives no result. The text of an `Err` is its prefix
   * ("Invalid chain ID: ", "Unsupported chain ID", "Invalid contract address: ", "Invalid
   * sender address: ", "Invalid signer address: ", "Invalid nonce: ") followed by the cause.
   * `ChainIdOverflow` is no `Err`: `as_u64` panics on a chain id of 2^64 or more, which
   * traps the wasm instance.
   */
  datatype SignerError =
    | InvalidChainId(cause: DecStrError)
    | ChainIdOverflow
    | UnsupportedChainId
    | InvalidContractAddress
    | InvalidSenderAddress
    | InvalidSignerAddress
    | InvalidNonce(cause: DecStrError)

  /**
   * The text of a `SignerError`: the `JsValue` string of an `Err`, or the panic message for
   * `ChainIdOverflow`. The hex decoder's own text for a rejected address is the parameter
   * `addressCause`.
   */
  function ErrorText(e: SignerError, addressCause: string): string
  {
    match e
    case InvalidChainId(cause) => "Invalid chain ID: " + DecStrErrorText(cause)
    case ChainIdOverflow => "Integer overflow when casting to u64"
    case UnsupportedChainId => "Unsupported chain ID"
    case InvalidContractAddress => "Invalid contract address: " + addressCause
    case InvalidSenderAddress => "Invalid sender address: " + addressCause
    case InvalidSignerAddress => "Invalid signer address: " + addressCause
    case InvalidNonce(cause) => "Invalid nonce: " + DecStrErrorText(cause)
  }

  /** The text tells which step failed and, for a decimal-parse failure, why. */
  lemma ErrorTextDistinguishes(e1: SignerError, e2: SignerError, c1: string, c2: string)
    requires ErrorText(e1, c1) == ErrorText(e2, c2)
    ensures e1 == e2
  {
    // Characters 0, 2, 8 and 9 tell the seven prefixes apart; the first character of the
    // cause tells the two decimal-parse errors apart.
    var t1, t2 := ErrorText(e1, c1), ErrorText(e2, c2);
    assert t1[0] == t2[0] && t1[2] == t2[2] && t1[8] == t2[8] && t1[9] == t2[9];
    if e1.InvalidChainId? && e2.InvalidChainId? {
      assert t1[18] == t2[18];
    }
    if e1.InvalidNonce? && e2.InvalidNonce? {
      assert t1[15] == t2[15];
    }
  }

  /** The chain ids `new` accepts. */
  const SUPPORTED_CHAINS: set<nat> := {42161, 81457, 5000}

  /** The `match` on the chain id: the verifying contract's text for Arbitrum One, Blast and Mantle. */
  function ContractFor(chainId: nat): (r: Option<string>)
    ensures r.Some? <==> chainId in SUPPORTED_CHAINS
  {
    if chainId == 42161 then Some("0x" + "bbee07b3e8121227afcfe1e2b82772246226128e")
    else if chainId == 81457 then Some("0x" + "00f076fe36f2341a1054b16ae05fce0c65180ded")
    else if chainId == 5000 then Some("0x" + "526d7c7ea3677eff28cb5ba457f9d341f297fd52")
    else None
  }

  /** Every registry constant is `0x` and 40 lower-case hex digits. */
  lemma RegistryWellFormed(chainId: nat)
    requires chainId in SUPPORTED_CHAINS
    ensures var t := ContractFor(chainId).value;
      |t| == 42 && t[..2] == "0x" && Hex.IsLowerHex(t[2..])
  {
    if chainId == 42161 {
      PrefixedHex("bbee07b3e8121227afcfe1e2b82772246226128e");
    } else if chainId == 81457 {
      PrefixedHex("00f076fe36f2341a1054b16ae05fce0c65180ded");
    } else {
      PrefixedHex("526d7c7ea3677eff28cb5ba457f9d341f297fd52");
    }
  }

  lemma PrefixedHex(h: string)
    requires |h| == 40 && Hex.IsLowerHex(h)
    ensures var t := "0x" + h; |t| == 42 && t[..2] == "0x" && t[2..] == h
  {
    var t := "0x" + h;
    assert t[2..] == h;
  }

  /**
   * `EIP712Signer::new`: parse the chain id, narrow it to 64 bits, look up its verifying
   * contract, parse that, and keep name and version as given.
   */
  function New(name: string, version: string, chainIdText: string): Result<Signer, SignerError>
  {
    match FromDecStr(chainIdText)
    case Err(e) => Err(InvalidChainId(e))
    case Ok(chainId) =>
      if chainId >= U64_LIMIT then Err(ChainIdOverflow)
      else
        match ContractFor(chainId)
        case None => Err(UnsupportedChainId)
        case Some(contract) =>
          match ParseAddress(contract)
          case None => Err(InvalidContractAddress)
          case Some(verifyingContract) => Ok(Signer(Domain(name, version, chainId, verifyingContract)))
  }

  /**
   * `new` succeeds exactly on a decimal numeral of a supported chain id, keeps name,
   * version and chain id, and verifies against that chain's registry contract. A bad
   * numeral gives its parse error, a number of 2^64 or more traps, any other number is
   * unsupported, and the contract-address error cannot happen.
   */
  lemma NewSpec(name: string, version: string, chainIdText: string)
    ensures var r := New(name, version, chainIdText);
      var id := FromDecStr(chainIdText);
      && (r.Ok? <==> id.Ok? && id.value in SUPPORTED_CHAINS)
      && (id.Err? ==> r == Err(InvalidChainId(id.error)))
      && (id.Ok? && id.value >= U64_LIMIT ==> r == Err(ChainIdOverflow))
      && (id.Ok? && id.value < U64_LIMIT && id.value !in SUPPORTED_CHAINS ==> r == Err(UnsupportedChainId))
      && r != Err(InvalidContractAddress)
      && (r.Ok? ==>
            && r.value.domain.name == name
            && r.value.domain.version == version
            && r.value.domain.chainId == id.value
            && DebugAddress(r.value.domain.verifyingContract) == ContractFor(id.value).value)
  {
    var id := FromDecStr(chainIdText);
    if id.Ok? && id.value in SUPPORTED_CHAINS {
      var contract := ContractFor(id.value).value;
      RegistryWellFormed(id.value);
      assert Hex.StripPrefix(contract) == contract[2..];
      assert ParseAddress(contract).Some?;
      DebugParse(contract);
      assert Text.ToLower(contract[2..]) == contract[2..];
      assert contract == "0x" + contract[2..];
    }
  }

  /** `new` on the decimal numeral of a number: it succeeds exactly for the three supported chains. */
  lemma NewFromNumber(name: string, version: string, chainId: nat)
    requires chainId < U256_LIMIT
    ensures New(name, version, Text.DecimalString(chainId)).Ok? <==> chainId in SUPPORTED_CHAINS
    ensures New(name, version, Text.DecimalString(chainId)).Ok? ==>
      New(name, version, Text.DecimalString(chainId)).value.domain.chainId == chainId
  {
    DecimalRoundTrip(chainId);
    NewSpec(name, version, Text.DecimalString(chainId));
  }

  /** `get_contract_address`: the domain's verifying contract, printed with `{:?}`. */
  function GetContractAddress(signer: Signer): (t: string)
    ensures ParseAddress(t) == Some(signer.domain.verifyingContract)
  {
    ParseDebug(signer.domain.verifyingContract);
    DebugAddress(signer.domain.verifyingContract)
  }

  /** A signer made by `new` reports exactly the registry constant of its chain. */
  lemma ContractAddressOfNew(name: string, version: string, chainIdText: string)
    requires New(name, version, chainIdText).Ok?
    ensures var s := New(name, version, chainIdText).value;
      GetContractAddress(s) == ContractFor(s.domain.chainId).value
  {
    NewSpec(name, version, chainIdText);
  }

  // ---------------------------------------------------------------------------------------
  // `get_typed_data`
  // ---------------------------------------------------------------------------------------

  /** The `LinkSigner` schema as this file declares it: the signer is an `address` and the nonce a `uint256`. */
  const LINK_SIGNER: seq<Field> := [Field("sender", "bytes32"), Field("signer", "address"), Field("nonce", "uint256")]

  /** The `domain` object of the document: the chain id as a decimal string, the contract as `{:?}` text. */
  datatype DomainJson = DomainJson(name: string, version: string, chainId: string, verifyingContract: string)

  datatype MessageJson = MessageJson(sender: string, signer: string, nonce: string)

  /** The `json!` document `get_typed_data` serialises. */
  datatype TypedDataJson = TypedDataJson(
    types: map<string, seq<Field>>,
    primaryType: string,
    domain: DomainJson,
    message: MessageJson)

  /** The message's values in schema order. */
  function Values(m: MessageJson): seq<string>
  {
    [m.sender, m.signer, m.nonce]
  }

  /** The document for a signer, the subaccount id of the sender, a parsed signer and a nonce. */
  function Document(signer: Signer, sender: WasmCodec.Bytes32, linked: Address, nonce: nat): TypedDataJson
  {
    TypedDataJson(
      map["EIP712Domain" := DOMAIN_FIELDS, "LinkSigner" := LINK_SIGNER],
      "LinkSigner",
      DomainJson(signer.domain.name, signer.domain.version, Text.DecimalString(signer.domain.chainId),
        DebugAddress(signer.domain.verifyingContract)),
      MessageJson("0x" + Hex.Encode(sender), DebugAddress(linked), Text.DecimalString(nonce)))
  }

  /**
   * `get_typed_data`: parse the sender and turn it into its "default" subaccount id, parse
   * the signer, parse the nonce, in that order, the first failure deciding the error; then
   * assemble the document.
   */
  method GetTypedData(self: Signer, sender: string, signer: string, nonce: string)
    returns (r: Result<TypedDataJson, SignerError>)
    ensures r.Ok? <==> ParseAddress(sender).Some? && ParseAddress(signer).Some? && FromDecStr(nonce).Ok?
    ensures ParseAddress(sender).None? ==> r == Err(InvalidSenderAddress)
    ensures ParseAddress(sender).Some? && ParseAddress(signer).None? ==> r == Err(InvalidSignerAddress)
    ensures ParseAddress(sender).Some? && ParseAddress(signer).Some? && FromDecStr(nonce).Err? ==>
      r == Err(InvalidNonce(FromDecStr(nonce).error))
    ensures r.Ok? ==> r.value == Document(self,
      Ids.SubaccountId(ParseAddress(sender).value, Ids.DEFAULT_LABEL),
      ParseAddress(signer).value, FromDecStr(nonce).value)
  {
    var senderAddress := ParseAddress(sender);
    if senderAddress.None? {
      return Err(InvalidSenderAddress);
    }
    var subaccount := WasmCodec.CreateSubaccount(senderAddress.value);
    var signerAddress := ParseAddress(signer);
    if signerAddress.None? {
      return Err(InvalidSignerAddress);
    }
    var value := FromDecStr(nonce);
    if value.Err? {
      return Err(InvalidNonce(value.error));
    }
    r := Ok(Document(self, subaccount, signerAddress.value, value.value));
  }

  /**
   * The document's fixed shape: primary type `LinkSigner`; the four domain fields and the
   * three `LinkSigner` fields in order, typed `bytes32`, `address`, `uint256`; the domain
   * copied from the signer.
   */
  lemma DocumentShape(signer: Signer, sender: WasmCodec.Bytes32, linked: Address, nonce: nat)
    ensures var d := Document(signer, sender, linked, nonce);
      && d.primaryType == "LinkSigner"
      && d.types.Keys == {"EIP712Domain", "LinkSigner"}
      && Names(d.types["EIP712Domain"]) == ["name", "version", "chainId", "verifyingContract"]
      && Names(d.types["LinkSigner"]) == ["sender", "signer", "nonce"]
      && d.types["LinkSigner"][0].typ == "bytes32"
      && d.types["LinkSigner"][1].typ == "address"
      && d.types["LinkSigner"][2].typ == "uint256"
      && d.domain.name == signer.domain.name && d.domain.version == signer.domain.version
      && d.domain.verifyingContract == GetContractAddress(signer)
  {
    assert Names(DOMAIN_FIELDS) == ["name", "version", "chainId", "verifyingContract"];
    assert Names(LINK_SIGNER) == ["sender", "signer", "nonce"];
  }

  /**
   * The document's text decodes back to what it was built from: the subaccount id, the
   * signer address, the nonce and the chain id; and the message fits its schema whenever
   * the nonce is a `U256`.
   */
  lemma DocumentDecodes(signer: Signer, sender: WasmCodec.Bytes32, linked: Address, nonce: nat)
    ensures var d := Document(signer, sender, linked, nonce);
      && d.message.sender[..2] == "0x" && Hex.Decode(d.message.sender[2..]) == sender
      && ParseAddress(d.message.signer) == Some(linked)
      && (nonce < U256_LIMIT ==> FromDecStr(d.message.nonce) == Ok(nonce))
      && (signer.domain.chainId < U256_LIMIT ==> FromDecStr(d.domain.chainId) == Ok(signer.domain.chainId))
      && (Conforms(LINK_SIGNER, Values(d.message)) <==> nonce < U256_LIMIT)
  {
    var d := Document(signer, sender, linked, nonce);
    assert d.message.sender[2..] == Hex.Encode(sender);
    Hex.DecodeEncode(sender);
    ParseDebug(linked);
    if nonce < U256_LIMIT {
      DecimalRoundTrip(nonce);
    }
    if signer.domain.chainId < U256_LIMIT {
      DecimalRoundTrip(signer.domain.chainId);
    }
    Text.DecimalRoundTrip(nonce);
    ConformsLinkSigner(d.message);
  }

  /** Conformance to `LINK_SIGNER`, field by field. */
  lemma ConformsLinkSigner(m: MessageJson)
    ensures Conforms(LINK_SIGNER, Values(m)) <==>
      IsHexData(m.sender, 32) && IsHexData(m.signer, 20) && IsUint(m.nonce, U256_LIMIT)
  {
    var v := Values(m);
    assert Fits(LINK_SIGNER[0].typ, v[0]) == IsHexData(m.sender, 32);
    assert Fits(LINK_SIGNER[1].typ, v[1]) == IsHexData(m.signer, 20);
    assert Fits(LINK_SIGNER[2].typ, v[2]) == IsUint(m.nonce, U256_LIMIT);
  }
}
