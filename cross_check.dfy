/**
 * What the browser component and the wasm signer share and where they part: the same
 * three verifying contracts and the same subaccount id, but a `bytes32` signer and a
 * `uint64` nonce in the browser against an `address` signer and a `uint256` nonce in wasm.
 */
module CrossCheck {
  import opened Outcomes
  import opened Bytes
  import Text
  import Ids
  import opened Eip712
  import WebCodec
  import WebRegistry
  import WebTypedData
  import WasmCodec
  import WasmSigner

  /** The wasm `match` and the browser `CONTRACT_ADDRESSES` name the same contracts for the same chains. */
  lemma RegistriesAgree(chainId: nat)
    ensures WasmSigner.ContractFor(chainId).Some? <==> chainId in WebRegistry.CONTRACT_ADDRESSES
    ensures WasmSigner.ContractFor(chainId).Some? ==>
      WasmSigner.ContractFor(chainId).value == WebRegistry.CONTRACT_ADDRESSES[chainId]
    ensures WasmSigner.SUPPORTED_CHAINS == WebRegistry.SUPPORTED_CHAINS
  {
    if chainId == 42161 {
      ArbitrumContract();
    } else if chainId == 81457 {
      BlastContract();
    } else if chainId == 5000 {
      MantleContract();
    }
  }

  lemma ArbitrumContract()
    ensures WasmSigner.ContractFor(42161) == Some(WebRegistry.CONTRACT_ADDRESSES[42161])
  {
    assert "0x" + "bbee07b3e8121227afcfe1e2b82772246226128e" == "0xbbee07b3e8121227afcfe1e2b82772246226128e";
  }

  lemma BlastContract()
    ensures WasmSigner.ContractFor(81457) == Some(WebRegistry.CONTRACT_ADDRESSES[81457])
  {
    assert "0x" + "00f076fe36f2341a1054b16ae05fce0c65180ded" == "0x00f076fe36f2341a1054b16ae05fce0c65180ded";
  }

  lemma MantleContract()
    ensures WasmSigner.ContractFor(5000) == Some(WebRegistry.CONTRACT_ADDRESSES[5000])
  {
    assert "0x" + "526d7c7ea3677eff28cb5ba457f9d341f297fd52" == "0x526d7c7ea3677eff28cb5ba457f9d341f297fd52";
  }

  /**
   * A wasm signer built for a supported chain with the browser's name and version has the
   * browser's domain: same chain id (as a decimal string) and the same verifying contract text.
   */
  lemma DomainsAgree(chainId: nat, wallet: Address, signer: Address, nonce: nat)
    requires chainId in WebRegistry.SUPPORTED_CHAINS
    ensures WasmSigner.New("Vertex", "0.0.1", Text.DecimalString(chainId)).Ok?
    ensures WebTypedData.Build(chainId, wallet, signer, nonce).Ok?
    ensures var s := WasmSigner.New("Vertex", "0.0.1", Text.DecimalString(chainId)).value;
      var d := WasmSigner.Document(s, Ids.SubaccountId(wallet, Ids.DEFAULT_LABEL), signer, nonce).domain;
      var w := WebTypedData.Build(chainId, wallet, signer, nonce).value.domain;
      d == WasmSigner.DomainJson(w.name, w.version, Text.DecimalString(w.chainId), w.verifyingContract)
  {
    var text := Text.DecimalString(chainId);
    WasmSigner.NewFromNumber("Vertex", "0.0.1", chainId);
    var s := WasmSigner.New("Vertex", "0.0.1", text).value;
    WasmSigner.NewSpec("Vertex", "0.0.1", text);
    WasmSigner.ContractAddressOfNew("Vertex", "0.0.1", text);
    RegistriesAgree(chainId);
    assert WasmSigner.GetContractAddress(s) == WebRegistry.CONTRACT_ADDRESSES[chainId];
    WebTypedData.BuildSpec(chainId, wallet, signer, nonce);
  }

  /**
   * For the same wallet, signer and nonce the two messages agree on the sender and the
   * nonce text, while the browser's signer text is the wasm signer text followed by 24 '0'
   * digits: 32 bytes against 20.
   */
  lemma MessagesCompared(rust: WasmSigner.Signer, wallet: Address, signer: Address, nonce: nat)
    ensures var js := WebTypedData.LinkSignerMessage(wallet, signer, nonce);
      var rs := WasmSigner.Document(rust, Ids.SubaccountId(wallet, Ids.DEFAULT_LABEL), signer, nonce).message;
      && js.sender == rs.sender
      && js.nonce == rs.nonce
      && js.signer == rs.signer + seq(24, _ => '0')
      && WebCodec.Arrayify(js.signer) == Ok(Ids.SignerId(signer))
      && WasmSigner.ParseAddress(rs.signer) == Some(signer)
  {
    var js := WebTypedData.LinkSignerMessage(wallet, signer, nonce);
    WebCodec.SignerText(signer);
    var t := js.signer;
    assert t == t[..42] + t[42..];
    WebCodec.LowerHexlify(signer);
    assert t[..42] == WebCodec.Hexlify(signer);
    WasmSigner.ParseDebug(signer);
  }

  /**
   * A nonce in [2^64, 2^256) separates the two schemas: the wasm document conforms to its
   * `uint256` nonce field, the browser message does not conform to its `uint64` one; below
   * 2^64 both conform.
   */
  lemma NonceRangesDiffer(rust: WasmSigner.Signer, wallet: Address, signer: Address, nonce: nat)
    requires nonce < U256_LIMIT
    ensures var js := WebTypedData.LinkSignerMessage(wallet, signer, nonce);
      var rs := WasmSigner.Document(rust, Ids.SubaccountId(wallet, Ids.DEFAULT_LABEL), signer, nonce).message;
      && Conforms(WasmSigner.LINK_SIGNER, WasmSigner.Values(rs))
      && (Conforms(WebTypedData.LINK_SIGNER, WebTypedData.Values(js)) <==> nonce < U64_LIMIT)
  {
    Ids.SubaccountLayout(wallet, Ids.DEFAULT_LABEL);
    WasmSigner.DocumentDecodes(rust, Ids.SubaccountId(wallet, Ids.DEFAULT_LABEL), signer, nonce);
    WebTypedData.MessageSpec(wallet, signer, nonce);
  }
}
