/** Network registry of the browser component: `API_ENDPOINTS`, `CONTRACT_ADDRESSES` and `getContractAddress`. */
module WebRegistry {
  import opened Outcomes
  import Text

  /** Gateway base URL per chain id: Arbitrum One, Blast, Mantle. */
  const API_ENDPOINTS: map<nat, string> := map[
    42161 := "https://gateway.prod.vertexprotocol.com/v1/",
    81457 := "https://gateway.blast-prod.vertexprotocol.com/v1/",
    5000 := "https://gateway.mantle-prod.vertexprotocol.com/v1/"
  ]

  /** Verifying contract per chain id: Arbitrum One, Blast, Mantle. */
  const CONTRACT_ADDRESSES: map<nat, string> := map[
    42161 := "0xbbee07b3e8121227afcfe1e2b82772246226128e",
    81457 := "0x00f076fe36f2341a1054b16ae05fce0c65180ded",
    5000 := "0x526d7c7ea3677eff28cb5ba457f9d341f297fd52"
  ]

  const SUPPORTED_CHAINS: set<nat> := {42161, 81457, 5000}

  /** `getContractAddress`: the registry entry, or the "Unsupported chain ID" error for any other id. */
  function GetContractAddress(chainId: nat): (r: Result<string, string>)
    ensures r.Ok? <==> chainId in SUPPORTED_CHAINS
    ensures r.Ok? ==> r.value == CONTRACT_ADDRESSES[chainId]
    ensures r.Err? ==> r.error == "Unsupported chain ID: " + Text.DecimalString(chainId)
  {
    if chainId in CONTRACT_ADDRESSES then Ok(CONTRACT_ADDRESSES[chainId])
    else Err("Unsupported chain ID: " + Text.DecimalString(chainId))
  }

  /** Both tables cover exactly the same three networks, so a contract lookup never succeeds where the gateway lookup fails. */
  lemma RegistriesCoverSameChains()
    ensures API_ENDPOINTS.Keys == CONTRACT_ADDRESSES.Keys == SUPPORTED_CHAINS
  {
  }
}
