# LinkSigner typed-data client, modelled in Dafny

The repository is a small client that links a secondary "signer" key to a Vertex exchange
subaccount. It does this by having the wallet sign an EIP-712 `LinkSigner` message. The same
data preparation is written twice:

- in the browser component `web/components/EIP712SignatureComponent.jsx` (React and ethers v5);
- in the wasm module `src/lib.rs` (Rust, `ethers` types, `wasm_bindgen`).

This project models both and proves what they compute.

- **Identifiers** (`ids.dfy`, `bytes.dfy`, `hex.dfy`, `text.dfy`):
  - The 32-byte subaccount id is the 20-byte address followed by a label cut or zero-padded to 12 bytes.
  - The 32-byte signer id is the address followed by 12 zero bytes.
  - Also covered: the hex and decimal text the two files print.
- **Browser codec** (`web_codec.dfy`):
  - `toBytes12`, `concatToBytes32` and `createSubaccount` fill a local `Uint8Array` with `set`. They are methods over an `array` that return its contents.
  - `addressToBytes32`.
  - The ethers helpers they call: `arrayify`, `hexlify` and `getAddress`.
- **Browser registry and typed data** (`web_registry.dfy`, `web_typed_data.dfy`):
  - `API_ENDPOINTS`, `CONTRACT_ADDRESSES` and `getContractAddress`.
  - The `domain`, `types` and `message` literals of `signMessage`.
- **Browser session** (`web_session.dfy`):
  - The component state is the class `WebSession.Session`. Each React setter is a field assignment, made in the order the source makes it.
  - `connectWallet`, the signer input, `getNoceValue`, `signMessage`, `sendToApi` and `disconnectWallet` are its methods.
  - Every method keeps the invariant `Valid()`:
    - sending is enabled exactly when a result is staged;
    - no signature is held without a staged result;
    - a staged result is well formed: its sender decodes to a "default" subaccount id, its signer to a signer id, and its contract is a registry entry.
  - The provider, the wallet and `fetch` are outside the model. Their answers are method parameters.
- **wasm codec and signer** (`wasm_codec.dfy`, `wasm_signer.dfy`):
  - `to_bytes12`, `concat_to_bytes32` and `create_subaccount` fill `[u8; N]` arrays.
  - `U256::from_dec_str`, `Address` parsing and `{:?}` printing.
  - `EIP712Signer::new`, `get_typed_data` and `get_contract_address`.
  - A signer is an immutable value holding its domain.
- **Cross-check** (`cross_check.dfy`):
  - The two files agree on the verifying contracts, the domain, the sender and the nonce text.
  - They disagree on the signer encoding and the nonce range. The browser uses a `bytes32` signer right-padded with zeros and a `uint64` nonce. The wasm module uses an `address` signer and a `uint256` nonce. Each schema is modelled as its file declares it.

Behaviour of the libraries that the model fixes explicitly:

- `arrayify` accepts `0x` followed by an even number of hex digits, in either case. Otherwise it fails with the reason "hex data is odd-length" or "invalid arrayify value". The model carries only this reason; see "## Left out".
- A typed-array `set` that would write past the end throws a RangeError. Its message is V8's wording, "offset is out of bounds"; other engines word it differently.
- `U256::from_dec_str` reads its digits left to right. It returns `InvalidCharacter` at the first non-digit and `InvalidLength` once the value reaches 2^256. The empty text reads as 0.
- `as_u64` panics on a chain id of 2^64 or more, which traps the wasm instance. This is the `WasmSigner.SignerError.ChainIdOverflow` case, not an `Err`.
- `Address` parsing strips one optional `0x`, then needs exactly 40 hex digits. It checks no EIP-55 checksum.
- `{:?}` of an `Address` is `0x` followed by the 40 digits in lower case.

## Model

| member | source | states |
|---|---|---|
| Ids.Label12 | web/components/EIP712SignatureComponent.jsx:17-23 | the fitted label is exactly 12 bytes; byte i is the label's byte i when the label has one, else 0 |
| Ids.LabelTruncated | web/components/EIP712SignatureComponent.jsx:17-23 | a label longer than 12 bytes is cut to its first 12 bytes, never rejected |
| WebCodec.ToBytes12 | web/components/EIP712SignatureComponent.jsx:17-23 | the zeroed 12-byte buffer, after the `set` of the first min(len, 12) label bytes, is the fitted label |
| Bytes.CopyInto | web/components/EIP712SignatureComponent.jsx:34-35 | a bulk write leaves `src` at `offset..offset+|src|` and every other byte unchanged |
| Bytes.PlacedPair | web/components/EIP712SignatureComponent.jsx:33-35 | writing a 20-byte prefix at 0 and a 12-byte suffix at 20 over 32 zero bytes leaves exactly their concatenation |
| WebCodec.ConcatToBytes32 | web/components/EIP712SignatureComponent.jsx:32-37 | succeeds iff the address has at most 32 bytes and the name at most 12 bytes, otherwise the RangeError; the result is the two writes over 32 zero bytes; for a 20-byte address and a 12-byte name it is address ++ name |
| Ids.SubaccountLayout | web/components/EIP712SignatureComponent.jsx:32-37 | a subaccount id has 32 bytes: bytes [0,20) are the address and bytes [20,32) are the label's bytes, then zeros |
| Ids.DefaultSubaccount | web/components/EIP712SignatureComponent.jsx:41-42 | the "default" subaccount id is address ++ "default" ++ five zero bytes |
| Ids.SubaccountInjective | web/components/EIP712SignatureComponent.jsx:39-44 | equal subaccount ids have equal addresses and equal fitted labels |
| WebCodec.Arrayify | web/components/EIP712SignatureComponent.jsx:40 | succeeds iff the text is `0x`, hex digits of either case, even length; the byte count is half the digit count |
| WebCodec.ArrayifyHexlify | web/components/EIP712SignatureComponent.jsx:40-43 | `arrayify(hexlify(b)) == b` for every byte string |
| WebCodec.HexlifyArrayify | web/components/EIP712SignatureComponent.jsx:40-43 | `hexlify(arrayify(s))` is `s` lower-cased, for every text `arrayify` accepts |
| WebCodec.CreateSubaccount | web/components/EIP712SignatureComponent.jsx:39-44 | succeeds iff `arrayify` accepts the text with at most 32 bytes; `arrayify` errors propagate unchanged; a 20-byte address gives the hex text of its "default" subaccount id |
| WebCodec.SubaccountText | web/components/EIP712SignatureComponent.jsx:39-44 | the sender text has 66 characters and decodes to address ++ "default" ++ five zero bytes |
| WebCodec.AddressToBytes32 | web/components/EIP712SignatureComponent.jsx:24-31 | for any input: `0x`, then the lower-cased text without its leading `0x`, then '0' up to 64 digits; longer text is kept whole |
| WebCodec.SignerText | web/components/EIP712SignatureComponent.jsx:24-31 | for a valid address: 66 characters, the last 24 are '0', and the text is the hex of address ++ 12 zero bytes |
| Ids.SignerLayout | web/components/EIP712SignatureComponent.jsx:133 | a signer id has 32 bytes: the address, then 12 zero bytes |
| Ids.DefaultSubaccountIsNoSignerId | web/components/EIP712SignatureComponent.jsx:130-133 | no "default" subaccount id equals any signer id (byte 20 is 'd' in one and 0 in the other) |
| WebCodec.GetAddress | web/components/EIP712SignatureComponent.jsx:124-125 | accepts exactly 40 hex digits with an optional `0x`, whose mixed case passes the checksum; "invalid address" and "bad address checksum" otherwise; the address printed is the input's digits lower-cased |
| WebCodec.CasingIrrelevant | web/components/EIP712SignatureComponent.jsx:124-133 | text that differs from `hexlify(a)` only in case gives the same `arrayify` result and the same `addressToBytes32` result |
| WebRegistry.GetContractAddress | web/components/EIP712SignatureComponent.jsx:58-64 | succeeds exactly for chains 42161, 81457 and 5000, with the registry entry; any other id gives "Unsupported chain ID: " and the id |
| WebRegistry.RegistriesCoverSameChains | web/components/EIP712SignatureComponent.jsx:5-15 | the gateway table and the contract table cover the same three chains |
| WebTypedData.BuildSpec | web/components/EIP712SignatureComponent.jsx:127-155 | succeeds exactly on supported chains; the domain is {Vertex, 0.0.1, chainId, registry contract}; `types` holds only `LinkSigner` with fields sender, signer, nonce in that order |
| WebTypedData.MessageSpec | web/components/EIP712SignatureComponent.jsx:151-155 | the sender decodes to the "default" subaccount id and the signer to the signer id; the nonce text denotes the nonce; the message fits its schema iff the nonce is below 2^64 |
| WebTypedData.ConformsLinkSigner | web/components/EIP712SignatureComponent.jsx:143-149 | a message fits `LinkSigner` iff its sender and signer are 32-byte hex and its nonce is a `uint64` numeral |
| WebSession.AssembleTypedData | web/components/EIP712SignatureComponent.jsx:117-155 | the step-by-step assembly (network, two `getAddress` calls, contract lookup, `createSubaccount`, `addressToBytes32`) yields the typed data, or the first thrown message, that `Assemble` specifies |
| WebSession.PrepareSpec | web/components/EIP712SignatureComponent.jsx:104-127 | nothing is built without a provider, a wallet and a nonce ("Provider not initialized", "Wallet not connected", "Failed to get nonce value"); a nonce requires a recorded chain with a gateway and a successful query; what is built is the Vertex domain of the reported chain |
| WebSession.NonceAndDomainChainsMayDiffer | web/components/EIP712SignatureComponent.jsx:113-119 | the nonce comes from the chain recorded at connection and the domain from the chain reported at signing; with 42161 recorded and 5000 reported, a 5000 domain is built |
| WebSession.BuiltDetailsWellFormed | web/components/EIP712SignatureComponent.jsx:171-178 | details staged from a built message satisfy the session invariant's well-formedness |
| WebSession.StagedDetailsWellFormed | web/components/EIP712SignatureComponent.jsx:171-178 | whatever `signMessage` prepares stages well-formed details, for either wallet kind |
| WebSession.Session.constructor | web/components/EIP712SignatureComponent.jsx:47-56 | every field starts at its `useState` value, which satisfies the invariant |
| WebSession.Session.SetSignerAddress | web/components/EIP712SignatureComponent.jsx:297 | only the signer input changes |
| WebSession.Session.ConnectWallet | web/components/EIP712SignatureComponent.jsx:66-88 | per outcome: "MetaMask is not installed"; or the provider is kept, then account, chain and multi-sig flag are recorded as far as the calls succeed, with "Failed to connect to wallet: " and the reason at the first failure; the staged result is untouched |
| WebSession.Session.DisconnectWallet | web/components/EIP712SignatureComponent.jsx:90-100 | every field returns to its initial value except the signer input |
| WebSession.Session.GetNonceValue | web/components/EIP712SignatureComponent.jsx:190-224 | no chain: nothing changes; no gateway: the endpoint error; otherwise one `nonces` query to `{gateway}query`, the body kept, and `tx_nonce` returned exactly on success; failures set "Failed to send data to API: " and the reason |
| WebSession.Session.FailSigning | web/components/EIP712SignatureComponent.jsx:181-187 | a sign failure shows its message, clears the signature, drops the details and disables sending |
| WebSession.Session.PrepareSigning | web/components/EIP712SignatureComponent.jsx:104-155 | the result is `Prepare` of the old state; only `error` and `apiResponse` change; the query is sent iff provider, wallet and gateway are present |
| WebSession.Session.HandToWallet | web/components/EIP712SignatureComponent.jsx:157-180 | a multi-sig wallet gets a `submitTransaction(wallet, 0, …)` proposal, another wallet the typed data; success stages details with `isMultiSig` recorded and enables sending; failure clears them |
| WebSession.Session.SignMessage | web/components/EIP712SignatureComponent.jsx:102-188 | a wallet request exists iff preparation succeeds; any failure clears signature and details and disables sending; success stages the built sender, signer, nonce and contract and enables sending; wallet, chain and wallet kind never change |
| WebSession.Session.SendToApi | web/components/EIP712SignatureComponent.jsx:226-274 | refuses ("Please sign the message before sending.") without details or signature; otherwise posts exactly the staged sender, signer, nonce and signature to `{gateway}execute`; the staged result never changes |
| WasmCodec.ToBytes12 | src/lib.rs:134-140 | the 12-byte array is the fitted label: the first min(len, 12) bytes of the input, then zeros |
| WasmCodec.ConcatToBytes32 | src/lib.rs:142-147 | `ret[..20] == address` and `ret[20..] == name` |
| WasmCodec.CreateSubaccount | src/lib.rs:127-131 | the result is address ++ "default" ++ five zero bytes, the "default" subaccount id |
| WasmSigner.Scan | src/lib.rs:34-35 | a digit loop that succeeds has read only digits, and its value lies in [acc, 2^256) |
| WasmSigner.ScanDigits | src/lib.rs:34-35 | on digits the loop fails only when the final value reaches 2^256; no intermediate value overflows first |
| WasmSigner.FromDecStrSpec | src/lib.rs:34-35 | only digit strings parse; a digit string parses to its value when that is below 2^256, and otherwise gives `InvalidLength` |
| WasmSigner.FromDecStrBadCharacter | src/lib.rs:79-80 | a non-digit after digits that still fit gives `InvalidCharacter` |
| WasmSigner.DecimalRoundTrip | src/lib.rs:106-112 | `from_dec_str(n.to_string()) == n` for every `U256` value |
| WasmSigner.ParseAddress | src/lib.rs:72-78 | succeeds iff the text without one leading `0x` is exactly 40 hex digits of either case |
| WasmSigner.DebugAddress | src/lib.rs:107-111 | `{:?}` of an address is 42 characters: `0x` and lower-case hex |
| WasmSigner.ParseDebug | src/lib.rs:111 | parsing the printed address gives the address back |
| WasmSigner.DebugParse | src/lib.rs:76-78 | printing a parsed address gives the input's digits lower-cased |
| WasmSigner.ErrorTextDistinguishes | src/lib.rs:34-80 | the error texts of `new` and `get_typed_data` ("Invalid chain ID: ", "Unsupported chain ID", the address and nonce prefixes, the `as_u64` panic) identify the failing step, and for a decimal-parse failure its cause |
| WasmSigner.ContractFor | src/lib.rs:37-42 | the `match` has a contract exactly for chains 42161, 81457 and 5000 |
| WasmSigner.RegistryWellFormed | src/lib.rs:38-40 | every registry constant is `0x` and 40 lower-case hex digits |
| WasmSigner.NewSpec | src/lib.rs:32-55 | succeeds exactly when the chain-id text is a numeral of a supported chain; a bad numeral gives its parse error, 2^64 or more traps, other ids are unsupported, and the contract-address error cannot occur; name, version and chain id are kept, and the verifying contract prints as the registry constant |
| WasmSigner.NewFromNumber | src/lib.rs:34-42 | for the numeral of any `U256` value, `new` succeeds exactly for the three chains and keeps that chain id |
| WasmSigner.GetContractAddress | src/lib.rs:122-125 | the printed contract parses back to the domain's verifying contract |
| WasmSigner.ContractAddressOfNew | src/lib.rs:122-125 | a signer made by `new` reports exactly the registry constant of its chain |
| WasmSigner.GetTypedData | src/lib.rs:58-120 | succeeds iff sender, signer and nonce all parse; the first failure in the order sender, signer, nonce decides the error; on success the document carries the sender's "default" subaccount id, the signer and the nonce |
| WasmSigner.DocumentShape | src/lib.rs:88-108 | primary type `LinkSigner`; types `EIP712Domain` (name, version, chainId, verifyingContract) and `LinkSigner` (sender `bytes32`, signer `address`, nonce `uint256`); domain name and version copied, contract as `get_contract_address` prints it |
| WasmSigner.DocumentDecodes | src/lib.rs:103-113 | the document text decodes back to the subaccount id, the signer address, the nonce and the chain id; the message fits its schema iff the nonce is below 2^256 |
| WasmSigner.ConformsLinkSigner | src/lib.rs:96-100 | a message fits this `LinkSigner` iff its sender is 32-byte hex, its signer 20-byte hex and its nonce a `uint256` numeral |
| CrossCheck.RegistriesAgree | src/lib.rs:37-42 | the wasm `match` and the browser `CONTRACT_ADDRESSES` give the same contract text for every chain id, and support the same chains |
| CrossCheck.DomainsAgree | src/lib.rs:103-108 | for a supported chain, the wasm domain built with "Vertex" and "0.0.1" is the browser domain, with the chain id as a decimal string |
| CrossCheck.MessagesCompared | src/lib.rs:109-113 | for the same inputs the two messages have the same sender and nonce text; the browser signer is the wasm signer followed by 24 '0' digits (32 bytes against 20) |
| CrossCheck.NonceRangesDiffer | src/lib.rs:96-100 | a nonce in [2^64, 2^256) fits the wasm schema but not the browser's; below 2^64 both fit |
| Hex.DecodeEncode | src/lib.rs:110 | decoding `hex::encode` output gives the bytes back |
| Text.DecimalRoundTrip | web/components/EIP712SignatureComponent.jsx:117 | the decimal text of a number reads back as the number |
| Text.PadEnd | web/components/EIP712SignatureComponent.jsx:28 | `padEnd` keeps the text and fills with the pad character up to the target length, never truncating |

## Left out

- React rendering (the JSX markup), `web/main.jsx`, `web/App.jsx` and `vite.config.js`. They are presentation and build setup.
- React scheduling:
  - setters are modelled as immediate assignments, and each handler runs to completion before the next starts;
  - interleaved async handlers and stale closures are not modelled.
- `console` logging in both files.
- The `wasm_bindgen` glue.
- The provider and wallet calls are parameters of the session methods:
  - `eth_requestAccounts`, `getNetwork`, `getCode`;
  - `_signTypedData`, and `submitTransaction` with `tx.wait()`.
  
  An empty account list is not modelled.
- `fetch` and `response.json()` are an abstract `Reply`: rejected, or answered with `ok`, the HTTP status and a body reduced to `status`, `error` and `tx_nonce`. A `tx_nonce` that is JSON `null` or not a whole number is not modelled.
- The keccak-based functions are opaque:
  - `_TypedDataEncoder.hash` and `defaultAbiCoder.encode` are not computed. A multi-sig proposal carries the typed data whose hash it would submit.
  - The EIP-55 checksum comparison is the boolean parameter `checksumOk`.
- WebCodec.GetAddress: ICAP (`XE…`) addresses, which ethers converts, are rejected here as "invalid address".
- WebCodec.GetAddress: the error text is only ethers' reason ("invalid address", "bad address checksum"). ethers' Logger appends the argument details to the thrown message (argument name, value, error code, library version). `signMessage` shows that longer `err.message`; the model's `error` holds only the reason.
- WebCodec.Arrayify: the error text is only ethers' reason ("hex data is odd-length", "invalid arrayify value"), without the argument details the Logger appends to the thrown message.
- WebCodec.GetAddress: the checksummed text is carried as its lower-case form `hexlify(a)`. WebCodec.CasingIrrelevant shows that every consumer of it gives the same result either way.
- `TextEncoder().encode` and `str::as_bytes`: labels are byte sequences. The only label either file uses is "default", whose bytes are given.
- `toLowerCase` is modelled for ASCII only; the core lower-cases only hex text and `x`.
- WasmSigner.ParseAddress: accepts an optional `0x` and exactly 40 hex digits; any other leniency of the hex decoder is not modelled.
- WasmSigner.ErrorText: the inner `{e}` text of an address parse error is a parameter; the hex decoder's own wording is not modelled.
- WasmSigner.GetTypedData: `serde_json` serialisation (key order, escaping) is left out. The document is returned as a value whose fields are the JSON members.
- JavaScript `Number` precision of chain ids and nonces is not modelled; both are unbounded naturals.
- No stale-response guard exists in the source, and none is modelled.
