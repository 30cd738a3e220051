/**
 * Identifier codec of the wasm signer (src/lib.rs): `to_bytes12`, `concat_to_bytes32` and
 * `create_subaccount`. Rust's fixed-size arrays make the lengths part of the types, so
 * unlike the browser version nothing here can fail.
 */
module WasmCodec {
  import opened Bytes
  import Ids

  /** A Rust `[u8; 12]`. */
  type Bytes12 = b: seq<Byte> | |b| == 12 witness Zeros(12)

  /** A Rust `[u8; 32]`. */
  type Bytes32 = b: seq<Byte> | |b| == 32 witness Zeros(32)

  /**
   * `to_bytes12`: a zeroed `[u8; 12]` whose first min(len, 12) bytes are overwritten by
   * the label's bytes with `copy_from_slice`.
   */
  method ToBytes12(s: seq<Byte>) returns (r: Bytes12)
    ensures r == Ids.Label12(s)
  {
    var result := new Byte[12](_ => 0);
    var len := if |s| < 12 then |s| else 12;
    CopyInto(result, s[..len], 0);
    r := result[..];
  }

  /**
   * `concat_to_bytes32`: a zeroed `[u8; 32]`, the address cloned into `ret[..20]` and the
   * name into `ret[20..]`.
   */
  method ConcatToBytes32(address: Address, name: Bytes12) returns (r: Bytes32)
    ensures r[..20] == address && r[20..] == name
  {
    var ret := new Byte[32](_ => 0);
    CopyInto(ret, address, 0);
    CopyInto(ret, name, 20);
    r := ret[..];
    PlacedPair(address, name);
    assert r == address + name;
  }

  /** `create_subaccount`: the 32-byte subaccount id of the address under the label "default". */
  method CreateSubaccount(address: Address) returns (r: Bytes32)
    ensures r == Ids.SubaccountId(address, Ids.DEFAULT_LABEL)
    ensures r == address + Ids.DEFAULT_LABEL + Zeros(5)
  {
    var subaccountName := ToBytes12(Ids.DEFAULT_LABEL);
    r := ConcatToBytes32(address, subaccountName);
    assert r == r[..20] + r[20..];
    Ids.DefaultSubaccount(address);
  }
}
