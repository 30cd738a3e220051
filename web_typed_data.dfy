/**
 * Typed-data builder of the browser component: the `domain`, `types` and `message`
 * literals of `signMessage`, with sender and signer encoded by the web codec.
 */
module WebTypedData {
  import opened Outcomes
  import opened Bytes
  import Text
  import Hex
  import Ids
  import opened Eip712
  import WebCodec
  import WebRegistry

  /** The `domain` object: `chainId` is the number the provider reports. */
  datatype Domain = Domain(name: string, version: string, chainId: nat, verifyingContract: string)

  /** The `message` object: hex text for sender and signer, decimal text for the nonce. */
  datatype Message = Message(sender: string, signer: string, nonce: string)

  datatype TypedData = TypedData(domain: Domain, types: map<string, seq<Field>>, message: Message)

  /** The `LinkSigner` schema as this file declares it: the signer is a `bytes32` and the nonce a `uint64`. */
  const LINK_SIGNER: seq<Field> := [Field("sender", "bytes32"), Field("signer", "bytes32"), Field("nonce", "uint64")]

  /** The message's values in schema order. */
  function Values(m: Message): seq<string>
  {
    [m.sender, m.signer, m.nonce]
  }

  /** The three object literals, from values `signMessage` computed before them. */
  function LinkSignerTypedData(chainId: nat, contractAddress: string, sender: string, signer: string, nonce: string): TypedData
  {
    TypedData(
      Domain("Vertex", "0.0.1", chainId, contractAddress),
      map["LinkSigner" := LINK_SIGNER],
      Message(sender, signer, nonce))
  }

  /** The message for a wallet, a signer and a nonce: the wallet's "default" subaccount id and the right-padded signer address, as hex text. */
  function LinkSignerMessage(wallet: Address, signer: Address, nonce: nat): Message
  {
    Message(
      WebCodec.Hexlify(Ids.SubaccountId(wallet, Ids.DEFAULT_LABEL)),
      WebCodec.AddressToBytes32(WebCodec.Hexlify(signer)),
      Text.DecimalString(nonce))
  }

  /** What `signMessage` builds for a chain, two validated addresses and a nonce; only the contract lookup can fail. */
  function Build(chainId: nat, wallet: Address, signer: Address, nonce: nat): Result<TypedData, string>
  {
    match WebRegistry.GetContractAddress(chainId)
    case Err(e) => Err(e)
    case Ok(contractAddress) =>
      var m := LinkSignerMessage(wallet, signer, nonce);
      Ok(LinkSignerTypedData(chainId, contractAddress, m.sender, m.signer, m.nonce))
  }

  /** Supported chains only; the fixed domain `{Vertex, 0.0.1, chainId, registry entry}` and the fixed schema order. */
  lemma BuildSpec(chainId: nat, wallet: Address, signer: Address, nonce: nat)
    ensures Build(chainId, wallet, signer, nonce).Ok? <==> chainId in WebRegistry.SUPPORTED_CHAINS
    ensures Build(chainId, wallet, signer, nonce).Err? ==>
      Build(chainId, wallet, signer, nonce).error == "Unsupported chain ID: " + Text.DecimalString(chainId)
    ensures Build(chainId, wallet, signer, nonce).Ok? ==>
      var td := Build(chainId, wallet, signer, nonce).value;
      && td.domain == Domain("Vertex", "0.0.1", chainId, WebRegistry.CONTRACT_ADDRESSES[chainId])
      && td.types == map["LinkSigner" := LINK_SIGNER]
      && Names(td.types["LinkSigner"]) == ["sender", "signer", "nonce"]
      && td.message == LinkSignerMessage(wallet, signer, nonce)
  {
    assert Names(LINK_SIGNER) == ["sender", "signer", "nonce"];
  }

  /**
   * The sender and signer text decode to the subaccount id and the signer id, the nonce
   * text denotes the nonce, and the message fits its schema exactly when the nonce fits
   * in 64 bits.
   */
  lemma MessageSpec(wallet: Address, signer: Address, nonce: nat)
    ensures var m := LinkSignerMessage(wallet, signer, nonce);
      && WebCodec.Arrayify(m.sender) == Ok(Ids.SubaccountId(wallet, Ids.DEFAULT_LABEL))
      && WebCodec.Arrayify(m.signer) == Ok(Ids.SignerId(signer))
      && Text.DigitsValue(m.nonce) == nonce
      && (Conforms(LINK_SIGNER, Values(m)) <==> nonce < U64_LIMIT)
  {
    var m := LinkSignerMessage(wallet, signer, nonce);
    WebCodec.ArrayifyHexlify(Ids.SubaccountId(wallet, Ids.DEFAULT_LABEL));
    WebCodec.SignerText(signer);
    Text.DecimalRoundTrip(nonce);
    Ids.SubaccountLayout(wallet, Ids.DEFAULT_LABEL);
    HexlifyIsHexData(Ids.SubaccountId(wallet, Ids.DEFAULT_LABEL));
    HexlifyIsHexData(Ids.SignerId(signer));
    Ids.SignerLayout(signer);
    ConformsLinkSigner(m);
  }

  /** Conformance to `LINK_SIGNER`, field by field. */
  lemma ConformsLinkSigner(m: Message)
    ensures Conforms(LINK_SIGNER, Values(m)) <==>
      IsHexData(m.sender, 32) && IsHexData(m.signer, 32) && IsUint(m.nonce, U64_LIMIT)
  {
    var v := Values(m);
    assert Fits(LINK_SIGNER[0].typ, v[0]) == IsHexData(m.sender, 32);
    assert Fits(LINK_SIGNER[1].typ, v[1]) == IsHexData(m.signer, 32);
    assert Fits(LINK_SIGNER[2].typ, v[2]) == IsUint(m.nonce, U64_LIMIT);
  }

  lemma HexlifyIsHexData(b: seq<Byte>)
    ensures IsHexData(WebCodec.Hexlify(b), |b|)
  {
    assert WebCodec.Hexlify(b)[2..] == Hex.Encode(b);
  }
}
