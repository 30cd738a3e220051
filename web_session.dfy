/**
 * The session record of the browser component and its transitions: `connectWallet`,
 * the signer input, `getNoceValue`, `signMessage`, `sendToApi` and `disconnectWallet`.
 * Each React state setter is an assignment to a field, in the order the source calls it.
 * The wallet provider and `fetch` are outside the model: their answers are parameters.
 */
module WebSession {
  import opened Outcomes
  import opened Bytes
  import Text
  import Ids
  import WebCodec
  import WebRegistry
  import WebTypedData

  /** The JSON body of a gateway answer, reduced to the members the component reads (`error` "" when absent). */
  datatype ApiResponse = ApiResponse(status: string, error: string, txNonce: Option<nat>)

  /** One `fetch` followed by `response.json()`: rejected (network failure or a body that is not JSON), or answered. */
  datatype Reply = Rejected(reason: string) | Replied(ok: bool, httpStatus: nat, body: ApiResponse)

  /** The body POSTed to `{gateway}query`. */
  datatype QueryRequest = QueryRequest(url: string, typ: string, address: string)

  /** The body POSTed to `{gateway}execute`: the `link_signer` transaction and its signature. */
  datatype ExecuteRequest = ExecuteRequest(url: string, sender: string, signer: string, nonce: string, signature: string)

  /** The staged result shown to the user and later submitted. */
  datatype SignatureDetails = SignatureDetails(
    currentWallet: string, sender: string, signer: string, nonce: string,
    contractAddress: string, isMultiSig: bool)

  /**
   * What is handed to the wallet: the typed data to sign directly, or, for a contract
   * account, a `submitTransaction(to, value, data)` call on that contract whose data is
   * the ABI-encoded hash of the typed data.
   */
  datatype SigningRequest =
    | Direct(typedData: WebTypedData.TypedData)
    | Proposal(contract: string, to: string, value: nat, typedData: WebTypedData.TypedData)

  /** Every piece of component state, as one value. */
  datatype State = State(
    signature: string, error: string, signerAddress: string, currentWallet: string,
    provider: bool, signatureDetails: Option<SignatureDetails>, isMultiSig: bool,
    isSendDisabled: bool, chainId: Option<nat>, apiResponse: Option<ApiResponse>)

  /** The `useState` initial values. */
  const INITIAL := State("", "", "", "", false, None, false, true, None, None)

  const API_ERROR_PREFIX := "Failed to send data to API: "
  const MULTISIG_PREFIX := "Multi-sig transaction submitted: "

  /** The answer counts as a success: `response.ok` and `status !== "failure"`. */
  predicate Succeeded(reply: Reply)
  {
    reply.Replied? && reply.ok && reply.body.status != "failure"
  }

  /** The message of the Error thrown for a failed reply: the transport reason, the body's `error`, or the HTTP status. */
  function FailureText(reply: Reply): string
  {
    match reply
    case Rejected(reason) => reason
    case Replied(_, httpStatus, body) =>
      if body.error != "" then body.error else "HTTP error! status: " + Text.DecimalString(httpStatus)
  }

  /** `!chainId` on a nullable number: null and 0 are both falsy. */
  predicate NoChain(chainId: Option<nat>)
  {
    chainId.None? || chainId.value == 0
  }

  /** The gateway base URL of the recorded chain, when there is one. */
  function Gateway(chainId: Option<nat>): Option<string>
  {
    if NoChain(chainId) || chainId.value !in WebRegistry.API_ENDPOINTS then None
    else Some(WebRegistry.API_ENDPOINTS[chainId.value])
  }

  function NoGatewayError(chainId: nat): string
  {
    "No API endpoint configured for chain ID " + Text.DecimalString(chainId)
  }

  /** The value `getNoceValue` resolves to: the body's `tx_nonce` after a successful query, otherwise undefined. */
  function NonceOf(chainId: Option<nat>, reply: Reply): Option<nat>
  {
    if Gateway(chainId).Some? && Succeeded(reply) then reply.body.txNonce else None
  }

  /**
   * The steps of `signMessage` after the nonce is known, as one value: the typed data, or
   * the message of the first step that throws (the provider's network query, the two
   * `getAddress` calls, the contract lookup).
   */
  function Assemble(currentWallet: string, signerAddress: string, nonce: nat, network: Outcome<nat>,
                    walletChecksumOk: bool, signerChecksumOk: bool): Result<WebTypedData.TypedData, string>
  {
    match network
    case Failed(reason) => Err(reason)
    case Done(chainId) =>
      match WebCodec.GetAddress(currentWallet, walletChecksumOk)
      case Err(e) => Err(e)
      case Ok(wallet) =>
        match WebCodec.GetAddress(signerAddress, signerChecksumOk)
        case Err(e) => Err(e)
        case Ok(signer) => WebTypedData.Build(chainId, wallet, signer, nonce)
  }

  /**
   * The steps of `signMessage` before the wallet is called, as one value: the typed data
   * handed to the wallet, or the message of the first step that throws.
   */
  function Prepare(s: State, reply: Reply, network: Outcome<nat>, walletChecksumOk: bool, signerChecksumOk: bool)
    : Result<WebTypedData.TypedData, string>
  {
    if !s.provider then Err("Provider not initialized")
    else if s.currentWallet == "" then Err("Wallet not connected")
    else match NonceOf(s.chainId, reply)
      case None => Err("Failed to get nonce value")
      case Some(nonce) => Assemble(s.currentWallet, s.signerAddress, nonce, network, walletChecksumOk, signerChecksumOk)
  }

  /** The typed-data steps of `signMessage`, in the source's order (`createSubaccount` fills its buffers in place). */
  method AssembleTypedData(currentWallet: string, signerAddress: string, nonceValue: nat, network: Outcome<nat>,
                           walletChecksumOk: bool, signerChecksumOk: bool)
    returns (r: Result<WebTypedData.TypedData, string>)
    ensures r == Assemble(currentWallet, signerAddress, nonceValue, network, walletChecksumOk, signerChecksumOk)
  {
    var nonce := Text.DecimalString(nonceValue);
    if network.Failed? {
      return Err(network.reason);
    }
    var networkChainId := network.value;
    var formattedCurrentWallet := WebCodec.GetAddress(currentWallet, walletChecksumOk);
    if formattedCurrentWallet.Err? {
      return Err(formattedCurrentWallet.error);
    }
    var formattedSignerAddress := WebCodec.GetAddress(signerAddress, signerChecksumOk);
    if formattedSignerAddress.Err? {
      return Err(formattedSignerAddress.error);
    }
    var contractAddress := WebRegistry.GetContractAddress(networkChainId);
    if contractAddress.Err? {
      return Err(contractAddress.error);
    }
    // The checksummed text is carried as its lower-case form (see WebCodec.CasingIrrelevant).
    var walletText := WebCodec.Hexlify(formattedCurrentWallet.value);
    WebCodec.ArrayifyHexlify(formattedCurrentWallet.value);
    var sender := WebCodec.CreateSubaccount(walletText);
    var signer32Bytes := WebCodec.AddressToBytes32(WebCodec.Hexlify(formattedSignerAddress.value));
    r := Ok(WebTypedData.LinkSignerTypedData(networkChainId, contractAddress.value, sender.value, signer32Bytes, nonce));
  }

  /**
   * Nothing is signed without a provider, a connected wallet, a recorded chain with a
   * gateway, and a successful nonce query whose body carries `tx_nonce`; what is signed is
   * the fixed `Vertex`/`0.0.1` domain of the chain the provider reports, with the registry
   * contract of that chain.
   */
  lemma PrepareSpec(s: State, reply: Reply, network: Outcome<nat>, walletChecksumOk: bool, signerChecksumOk: bool)
    ensures Prepare(s, reply, network, walletChecksumOk, signerChecksumOk).Ok? ==>
      && s.provider && s.currentWallet != ""
      && Gateway(s.chainId).Some? && Succeeded(reply) && reply.body.txNonce.Some?
      && network.Done? && network.value in WebRegistry.SUPPORTED_CHAINS
      && WebCodec.GetAddress(s.currentWallet, walletChecksumOk).Ok?
      && WebCodec.GetAddress(s.signerAddress, signerChecksumOk).Ok?
      && Prepare(s, reply, network, walletChecksumOk, signerChecksumOk).value ==
         WebTypedData.Build(network.value,
           WebCodec.GetAddress(s.currentWallet, walletChecksumOk).value,
           WebCodec.GetAddress(s.signerAddress, signerChecksumOk).value,
           reply.body.txNonce.value).value
      && Prepare(s, reply, network, walletChecksumOk, signerChecksumOk).value.domain ==
         WebTypedData.Domain("Vertex", "0.0.1", network.value, WebRegistry.CONTRACT_ADDRESSES[network.value])
    ensures !s.provider ==> Prepare(s, reply, network, walletChecksumOk, signerChecksumOk) == Err("Provider not initialized")
    ensures s.provider && s.currentWallet == "" ==>
      Prepare(s, reply, network, walletChecksumOk, signerChecksumOk) == Err("Wallet not connected")
    ensures s.provider && s.currentWallet != "" && NonceOf(s.chainId, reply).None? ==>
      Prepare(s, reply, network, walletChecksumOk, signerChecksumOk) == Err("Failed to get nonce value")
  {
    var p := Prepare(s, reply, network, walletChecksumOk, signerChecksumOk);
    if p.Ok? {
      var wallet := WebCodec.GetAddress(s.currentWallet, walletChecksumOk).value;
      var signer := WebCodec.GetAddress(s.signerAddress, signerChecksumOk).value;
      WebTypedData.BuildSpec(network.value, wallet, signer, reply.body.txNonce.value);
    }
  }

  /**
   * The nonce is queried from the gateway of the chain recorded at connection, while the
   * domain takes the chain the provider reports when signing; nothing checks that the two
   * agree. With Arbitrum One recorded and Mantle reported, the Mantle domain is built.
   */
  lemma NonceAndDomainChainsMayDiffer(s: State, reply: Reply, walletChecksumOk: bool, signerChecksumOk: bool)
    requires s.provider && s.currentWallet != "" && s.chainId == Some(42161)
    requires Succeeded(reply) && reply.body.txNonce.Some?
    requires WebCodec.GetAddress(s.currentWallet, walletChecksumOk).Ok?
    requires WebCodec.GetAddress(s.signerAddress, signerChecksumOk).Ok?
    ensures Gateway(s.chainId) == Some(WebRegistry.API_ENDPOINTS[42161])
    ensures Prepare(s, reply, Done(5000), walletChecksumOk, signerChecksumOk).Ok?
    ensures Prepare(s, reply, Done(5000), walletChecksumOk, signerChecksumOk).value.domain.chainId == 5000
  {
    PrepareSpec(s, reply, Done(5000), walletChecksumOk, signerChecksumOk);
    WebTypedData.BuildSpec(5000,
      WebCodec.GetAddress(s.currentWallet, walletChecksumOk).value,
      WebCodec.GetAddress(s.signerAddress, signerChecksumOk).value,
      reply.body.txNonce.value);
  }

  /** A staged result as `signMessage` stages it: a "default" subaccount id, a signer id, a registry contract, a decimal nonce. */
  ghost predicate WellFormedDetails(d: SignatureDetails)
  {
    && WebCodec.Arrayify(d.sender).Ok?
    && |WebCodec.Arrayify(d.sender).value| == 32
    && WebCodec.Arrayify(d.sender).value[20..] == Ids.DEFAULT_LABEL + Zeros(5)
    && WebCodec.Arrayify(d.signer).Ok?
    && |WebCodec.Arrayify(d.signer).value| == 32
    && WebCodec.Arrayify(d.signer).value[20..] == Zeros(12)
    && d.contractAddress in WebRegistry.CONTRACT_ADDRESSES.Values
    && |d.nonce| > 0 && Text.AllDigits(d.nonce)
  }

  /**
   * The invariant every transition keeps: sending is enabled exactly when a result is
   * staged, no signature is held without one, and a staged result is well formed.
   */
  ghost predicate Consistent(s: State)
  {
    && (s.isSendDisabled <==> s.signatureDetails.None?)
    && (s.signatureDetails.None? ==> s.signature == "")
    && (s.signatureDetails.Some? ==> WellFormedDetails(s.signatureDetails.value))
  }

  /** What the typed data built for a session stages, once the wallet answered with `signature`. */
  lemma BuiltDetailsWellFormed(wallet: Address, signer: Address, nonce: nat, chainId: nat, currentWallet: string, multiSig: bool)
    requires chainId in WebRegistry.SUPPORTED_CHAINS
    ensures var m := WebTypedData.LinkSignerMessage(wallet, signer, nonce);
      WellFormedDetails(SignatureDetails(currentWallet, m.sender, m.signer, m.nonce,
        WebRegistry.CONTRACT_ADDRESSES[chainId], multiSig))
  {
    WebTypedData.MessageSpec(wallet, signer, nonce);
    Ids.DefaultSubaccount(wallet);
    assert (wallet + Ids.DEFAULT_LABEL + Zeros(5))[20..] == Ids.DEFAULT_LABEL + Zeros(5);
    Ids.SignerLayout(signer);
  }

  /** The result `signMessage` stages from prepared typed data is well formed. */
  lemma StagedDetailsWellFormed(s: State, reply: Reply, network: Outcome<nat>, walletChecksumOk: bool, signerChecksumOk: bool)
    requires Prepare(s, reply, network, walletChecksumOk, signerChecksumOk).Ok?
    ensures var td := Prepare(s, reply, network, walletChecksumOk, signerChecksumOk).value;
      forall multiSig: bool :: WellFormedDetails(SignatureDetails(s.currentWallet, td.message.sender,
        td.message.signer, td.message.nonce, td.domain.verifyingContract, multiSig))
  {
    PrepareSpec(s, reply, network, walletChecksumOk, signerChecksumOk);
    var wallet := WebCodec.GetAddress(s.currentWallet, walletChecksumOk).value;
    var signer := WebCodec.GetAddress(s.signerAddress, signerChecksumOk).value;
    WebTypedData.BuildSpec(network.value, wallet, signer, reply.body.txNonce.value);
    forall multiSig: bool {
      BuiltDetailsWellFormed(wallet, signer, reply.body.txNonce.value, network.value, s.currentWallet, multiSig);
    }
  }

  class Session {
    var signature: string
    var error: string
    var signerAddress: string
    var currentWallet: string
    var provider: bool
    var signatureDetails: Option<SignatureDetails>
    var isMultiSig: bool
    var isSendDisabled: bool
    var chainId: Option<nat>
    var apiResponse: Option<ApiResponse>

    ghost function Snapshot(): State
      reads this
    {
      State(signature, error, signerAddress, currentWallet, provider, signatureDetails,
        isMultiSig, isSendDisabled, chainId, apiResponse)
    }

    ghost predicate Valid()
      reads this
    {
      Consistent(Snapshot())
    }

    constructor()
      ensures Snapshot() == INITIAL && Valid()
    {
      signature, error, signerAddress, currentWallet := "", "", "", "";
      provider, signatureDetails, isMultiSig, isSendDisabled := false, None, false, true;
      chainId, apiResponse := None, None;
    }

    /** The signer input's `onChange`. */
    method SetSignerAddress(text: string)
      requires Valid()
      modifies this
      ensures Valid()
      ensures Snapshot() == old(Snapshot()).(signerAddress := text)
    {
      signerAddress := text;
    }

    /**
     * `connectWallet`, step by step: without `window.ethereum` only the error is set;
     * otherwise the provider is kept even when a later step rejects, the account and the
     * chain are recorded as they arrive, and non-empty code (not `0x`) marks a multi-sig.
     * The staged result is never touched.
     */
    method ConnectWallet(hasEthereum: bool, account: Outcome<string>, network: Outcome<nat>, code: Outcome<string>)
      requires Valid()
      modifies this
      ensures Valid()
      ensures !hasEthereum ==> Snapshot() == old(Snapshot()).(error := "MetaMask is not installed")
      ensures hasEthereum && account.Failed? ==>
        Snapshot() == old(Snapshot()).(provider := true, error := "Failed to connect to wallet: " + account.reason)
      ensures hasEthereum && account.Done? && network.Failed? ==>
        Snapshot() == old(Snapshot()).(provider := true, currentWallet := account.value,
          error := "Failed to connect to wallet: " + network.reason)
      ensures hasEthereum && account.Done? && network.Done? && code.Failed? ==>
        Snapshot() == old(Snapshot()).(provider := true, currentWallet := account.value,
          chainId := Some(network.value), error := "Failed to connect to wallet: " + code.reason)
      ensures hasEthereum && account.Done? && network.Done? && code.Done? ==>
        Snapshot() == old(Snapshot()).(provider := true, currentWallet := account.value,
          chainId := Some(network.value), isMultiSig := code.value != "0x", error := "")
    {
      if !hasEthereum {
        error := "MetaMask is not installed";
        return;
      }
      provider := true;
      if account.Failed? {
        error := "Failed to connect to wallet: " + account.reason;
        return;
      }
      currentWallet := account.value;
      if network.Failed? {
        error := "Failed to connect to wallet: " + network.reason;
        return;
      }
      chainId := Some(network.value);
      if code.Failed? {
        error := "Failed to connect to wallet: " + code.reason;
        return;
      }
      isMultiSig := code.value != "0x";
      error := "";
    }

    /** `disconnectWallet`: every field back to its initial value, except the signer input. */
    method DisconnectWallet()
      requires Valid()
      modifies this
      ensures Valid()
      ensures Snapshot() == INITIAL.(signerAddress := old(signerAddress))
    {
      currentWallet := "";
      provider := false;
      signature := "";
      signatureDetails := None;
      error := "";
      isMultiSig := false;
      chainId := None;
      isSendDisabled := true;
      apiResponse := None;
    }

    /**
     * `getNoceValue`: nothing without a recorded chain; an error without a gateway for it;
     * otherwise one `nonces` query, whose body is kept, and the body's `tx_nonce` on success.
     */
    method GetNonceValue(wallet: string, reply: Reply) returns (nonce: Option<nat>, query: Option<QueryRequest>)
      requires Valid()
      modifies this
      ensures Valid()
      ensures nonce == NonceOf(old(chainId), reply)
      ensures query.Some? <==> Gateway(old(chainId)).Some?
      ensures query.Some? ==> query.value == QueryRequest(Gateway(old(chainId)).value + "query", "nonces", wallet)
      ensures NoChain(old(chainId)) ==> Snapshot() == old(Snapshot())
      ensures !NoChain(old(chainId)) && Gateway(old(chainId)).None? ==>
        Snapshot() == old(Snapshot()).(error := NoGatewayError(old(chainId).value))
      ensures query.Some? && reply.Rejected? ==>
        Snapshot() == old(Snapshot()).(error := API_ERROR_PREFIX + reply.reason)
      ensures query.Some? && reply.Replied? ==>
        Snapshot() == old(Snapshot()).(apiResponse := Some(reply.body),
          error := if Succeeded(reply) then "" else API_ERROR_PREFIX + FailureText(reply))
    {
      nonce, query := None, None;
      if NoChain(chainId) {
        return;
      }
      if chainId.value !in WebRegistry.API_ENDPOINTS {
        error := NoGatewayError(chainId.value);
        return;
      }
      var apiEndpoint := WebRegistry.API_ENDPOINTS[chainId.value];
      query := Some(QueryRequest(apiEndpoint + "query", "nonces", wallet));
      if reply.Rejected? {
        error := API_ERROR_PREFIX + reply.reason;
        return;
      }
      apiResponse := Some(reply.body);
      if !reply.ok || reply.body.status == "failure" {
        error := API_ERROR_PREFIX + FailureText(reply);
        return;
      }
      error := "";
      nonce := reply.body.txNonce;
    }

    /** The `catch` block of `signMessage`: the error shown, the staged result dropped, sending disabled. */
    method FailSigning(message: string)
      requires Valid()
      modifies this
      ensures Valid()
      ensures Snapshot() == old(Snapshot()).(error := message, signature := "",
        signatureDetails := None, isSendDisabled := true)
    {
      error := message;
      signature := "";
      signatureDetails := None;
      isSendDisabled := true;
    }

    /**
     * The steps of `signMessage` from the nonce query to the typed data: the query's effects
     * on the session, and the typed data or the message of the first step that throws.
     */
    method PrepareSigning(reply: Reply, network: Outcome<nat>, walletChecksumOk: bool, signerChecksumOk: bool)
      returns (query: Option<QueryRequest>, prepared: Result<WebTypedData.TypedData, string>)
      requires Valid()
      modifies this
      ensures Valid()
      ensures prepared == Prepare(old(Snapshot()), reply, network, walletChecksumOk, signerChecksumOk)
      ensures Snapshot() == old(Snapshot()).(error := error, apiResponse := apiResponse)
      ensures query.Some? <==> old(provider) && old(currentWallet) != "" && Gateway(old(chainId)).Some?
      ensures query.Some? ==>
        query.value == QueryRequest(Gateway(old(chainId)).value + "query", "nonces", old(currentWallet))
      ensures apiResponse == if query.Some? && reply.Replied? then Some(reply.body) else old(apiResponse)
    {
      query := None;
      if !provider {
        return None, Err("Provider not initialized");
      }
      if currentWallet == "" {
        return None, Err("Wallet not connected");
      }
      var nonceValue;
      nonceValue, query := GetNonceValue(currentWallet, reply);
      if nonceValue.None? {
        return query, Err("Failed to get nonce value");
      }
      prepared := AssembleTypedData(currentWallet, signerAddress, nonceValue.value, network, walletChecksumOk, signerChecksumOk);
    }

    /**
     * `signMessage`. The answers from outside are parameters: the nonce query's `reply`,
     * the provider's `network`, the EIP-55 verdicts for the two addresses, and the wallet's
     * answer (a signature, or the hash of the mined proposal transaction). A failure at any
     * step drops the staged result and disables sending; success stages the result, records
     * which path was taken and enables sending.
     */
    method SignMessage(reply: Reply, network: Outcome<nat>, walletChecksumOk: bool, signerChecksumOk: bool,
                       walletAnswer: Outcome<string>)
      returns (query: Option<QueryRequest>, request: Option<SigningRequest>)
      requires Valid()
      modifies this
      ensures Valid()
      ensures currentWallet == old(currentWallet) && signerAddress == old(signerAddress)
      ensures provider == old(provider) && isMultiSig == old(isMultiSig) && chainId == old(chainId)
      ensures query.Some? <==> old(provider) && old(currentWallet) != "" && Gateway(old(chainId)).Some?
      ensures query.Some? ==>
        query.value == QueryRequest(Gateway(old(chainId)).value + "query", "nonces", old(currentWallet))
      ensures apiResponse == if query.Some? && reply.Replied? then Some(reply.body) else old(apiResponse)
      ensures var p := Prepare(old(Snapshot()), reply, network, walletChecksumOk, signerChecksumOk);
        && (request.Some? <==> p.Ok?)
        && (p.Ok? && !old(isMultiSig) ==> request == Some(Direct(p.value)))
        && (p.Ok? && old(isMultiSig) ==>
              request == Some(Proposal(old(currentWallet), old(currentWallet), 0, p.value)))
        && (p.Err? ==>
              error == p.error && signature == "" && signatureDetails.None? && isSendDisabled)
        && (p.Ok? && walletAnswer.Failed? ==>
              error == walletAnswer.reason && signature == "" && signatureDetails.None? && isSendDisabled)
        && (p.Ok? && walletAnswer.Done? ==>
              && signature == (if old(isMultiSig) then MULTISIG_PREFIX + walletAnswer.value else walletAnswer.value)
              && signatureDetails == Some(SignatureDetails(old(currentWallet), p.value.message.sender,
                   p.value.message.signer, p.value.message.nonce, p.value.domain.verifyingContract, old(isMultiSig)))
              && error == "" && !isSendDisabled)
    {
      ghost var s0 := Snapshot();
      var prepared;
      query, prepared := PrepareSigning(reply, network, walletChecksumOk, signerChecksumOk);
      if prepared.Err? {
        request := None;
        FailSigning(prepared.error);
        return;
      }
      StagedDetailsWellFormed(s0, reply, network, walletChecksumOk, signerChecksumOk);
      request := HandToWallet(prepared.value, walletAnswer);
    }

    /**
     * The end of `signMessage` once the typed data is built: hand it to the wallet (directly,
     * or as a proposal on the multi-sig contract, which is the connected account itself),
     * then stage the answer, or fail with the wallet's reason.
     */
    method HandToWallet(typedData: WebTypedData.TypedData, walletAnswer: Outcome<string>) returns (request: Option<SigningRequest>)
      requires Valid()
      requires forall multiSig: bool :: WellFormedDetails(SignatureDetails(currentWallet, typedData.message.sender,
        typedData.message.signer, typedData.message.nonce, typedData.domain.verifyingContract, multiSig))
      modifies this
      ensures Valid()
      ensures request == Some(if old(isMultiSig) then Proposal(old(currentWallet), old(currentWallet), 0, typedData)
                              else Direct(typedData))
      ensures walletAnswer.Failed? ==>
        Snapshot() == old(Snapshot()).(error := walletAnswer.reason, signature := "",
          signatureDetails := None, isSendDisabled := true)
      ensures walletAnswer.Done? ==>
        Snapshot() == old(Snapshot()).(
          signature := if old(isMultiSig) then MULTISIG_PREFIX + walletAnswer.value else walletAnswer.value,
          signatureDetails := Some(SignatureDetails(old(currentWallet), typedData.message.sender,
            typedData.message.signer, typedData.message.nonce, typedData.domain.verifyingContract, old(isMultiSig))),
          error := "", isSendDisabled := false)
    {
      if isMultiSig {
        request := Some(Proposal(currentWallet, currentWallet, 0, typedData));
      } else {
        request := Some(Direct(typedData));
      }
      if walletAnswer.Failed? {
        FailSigning(walletAnswer.reason);
        return;
      }
      signature := if isMultiSig then MULTISIG_PREFIX + walletAnswer.value else walletAnswer.value;
      signatureDetails := Some(SignatureDetails(currentWallet, typedData.message.sender, typedData.message.signer,
        typedData.message.nonce, typedData.domain.verifyingContract, isMultiSig));
      error := "";
      isSendDisabled := false;
    }

    /**
     * `sendToApi`: refuses without a staged result and a signature; does nothing without a
     * recorded chain; reports a chain without a gateway; otherwise POSTs the staged
     * transaction and signature to `{gateway}execute` and reports the answer. The staged
     * result is never changed.
     */
    method SendToApi(reply: Reply) returns (posted: Option<ExecuteRequest>)
      requires Valid()
      modifies this
      ensures Valid()
      ensures old(signatureDetails).None? || old(signature) == "" ==>
        posted.None? && Snapshot() == old(Snapshot()).(error := "Please sign the message before sending.")
      ensures old(signatureDetails).Some? && old(signature) != "" && NoChain(old(chainId)) ==>
        posted.None? && Snapshot() == old(Snapshot())
      ensures old(signatureDetails).Some? && old(signature) != "" && !NoChain(old(chainId)) && Gateway(old(chainId)).None? ==>
        posted.None? && Snapshot() == old(Snapshot()).(error := NoGatewayError(old(chainId).value))
      ensures posted.Some? <==> old(signatureDetails).Some? && old(signature) != "" && Gateway(old(chainId)).Some?
      ensures posted.Some? ==> posted.value == ExecuteRequest(Gateway(old(chainId)).value + "execute",
        old(signatureDetails).value.sender, old(signatureDetails).value.signer, old(signatureDetails).value.nonce,
        old(signature))
      ensures posted.Some? && reply.Rejected? ==>
        Snapshot() == old(Snapshot()).(error := API_ERROR_PREFIX + reply.reason)
      ensures posted.Some? && reply.Replied? ==>
        Snapshot() == old(Snapshot()).(apiResponse := Some(reply.body),
          error := if Succeeded(reply) then "" else API_ERROR_PREFIX + FailureText(reply))
    {
      posted := None;
      if signatureDetails.None? || signature == "" {
        error := "Please sign the message before sending.";
        return;
      }
      if NoChain(chainId) {
        return;
      }
      if chainId.value !in WebRegistry.API_ENDPOINTS {
        error := NoGatewayError(chainId.value);
        return;
      }
      var apiEndpoint := WebRegistry.API_ENDPOINTS[chainId.value];
      var details := signatureDetails.value;
      posted := Some(ExecuteRequest(apiEndpoint + "execute", details.sender, details.signer, details.nonce, signature));
      if reply.Rejected? {
        error := API_ERROR_PREFIX + reply.reason;
        return;
      }
      apiResponse := Some(reply.body);
      if !reply.ok || reply.body.status == "failure" {
        error := API_ERROR_PREFIX + FailureText(reply);
        return;
      }
      error := "";
    }
  }
}
