/** The parts of EIP-712 typed data that the core assembles: schema fields and what a value of each field type looks like as text. */
module Eip712 {
  import Text
  import Hex

  /** One `{ name, type }` entry of a struct schema. */
  datatype Field = Field(name: string, typ: string)

  function Names(fields: seq<Field>): (names: seq<string>)
    ensures |names| == |fields|
    ensures forall i :: 0 <= i < |fields| ==> names[i] == fields[i].name
  {
    seq(|fields|, i requires 0 <= i < |fields| => fields[i].name)
  }

  /** The `EIP712Domain` struct with the four members the core uses, in the order EIP-712 lists them. */
  const DOMAIN_FIELDS: seq<Field> := [
    Field("name", "string"),
    Field("version", "string"),
    Field("chainId", "uint256"),
    Field("verifyingContract", "address")
  ]

  const U64_LIMIT: nat := 0x1_0000_0000_0000_0000
  const U256_LIMIT: nat := 0x1_0000_0000_0000_0000_0000_0000_0000_0000_0000_0000_0000_0000_0000_0000_0000_0000

  /** `0x` followed by exactly `n` bytes of hex. */
  predicate IsHexData(v: string, n: nat)
  {
    |v| == 2 + 2 * n && v[..2] == "0x" && Hex.IsHex(v[2..])
  }

  predicate IsUint(v: string, limit: nat)
  {
    |v| > 0 && Text.AllDigits(v) && Text.DigitsValue(v) < limit
  }

  /** Whether the JSON text `v` is a value of the EIP-712 atomic type `typ`. */
  predicate Fits(typ: string, v: string)
  {
    match typ
    case "string" => true
    case "bytes32" => IsHexData(v, 32)
    case "address" => IsHexData(v, 20)
    case "uint64" => IsUint(v, U64_LIMIT)
    case "uint256" => IsUint(v, U256_LIMIT)
    case _ => false
  }

  /** The values, listed in schema order, fit the schema's field types one by one. */
  predicate Conforms(fields: seq<Field>, values: seq<string>)
  {
    |fields| == |values| && forall i :: 0 <= i < |fields| ==> Fits(fields[i].typ, values[i])
  }
}
