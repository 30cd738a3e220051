/**
 * The protocol identifiers both source files sign over: the 32-byte subaccount id
 * (address, then a label cut or zero-padded to 12 bytes) and the 32-byte signer id
 * (address, then 12 zero bytes).
 */
module Ids {
  import opened Bytes

  /** The UTF-8 bytes of the label "default" that both files attach to the sender. */
  const DEFAULT_LABEL: seq<Byte> := [0x64, 0x65, 0x66, 0x61, 0x75, 0x6c, 0x74]

  /** A label fitted to exactly 12 bytes: kept up to 12 bytes, then zero-filled; never rejected. */
  function Label12(name: seq<Byte>): (r: seq<Byte>)
    ensures |r| == 12
    ensures forall i :: 0 <= i < 12 ==> r[i] == if i < |name| then name[i] else 0
  {
    if |name| >= 12 then name[..12] else name + Zeros(12 - |name|)
  }

  function SubaccountId(a: Address, name: seq<Byte>): seq<Byte>
  {
    a + Label12(name)
  }

  function SignerId(a: Address): seq<Byte>
  {
    a + Zeros(12)
  }

  /** Byte layout of a subaccount id: the address, then the first 12 label bytes, then zeros. */
  lemma SubaccountLayout(a: Address, name: seq<Byte>)
    ensures |SubaccountId(a, name)| == 32
    ensures SubaccountId(a, name)[..20] == a
    ensures forall i :: 20 <= i < 32 ==>
      SubaccountId(a, name)[i] == if i - 20 < |name| then name[i - 20] else 0
  {
  }

  /** A label longer than 12 bytes is truncated: only its first 12 bytes are kept. */
  lemma {:induction false} LabelTruncated(name: seq<Byte>, rest: seq<Byte>)
    requires |name| == 12
    ensures Label12(name + rest) == name
  {
    assert (name + rest)[..12] == name;
  }

  /** The subaccount id of the label "default": address, "default", five zero bytes. */
  lemma DefaultSubaccount(a: Address)
    ensures SubaccountId(a, DEFAULT_LABEL) == a + DEFAULT_LABEL + Zeros(5)
  {
    assert Label12(DEFAULT_LABEL) == DEFAULT_LABEL + Zeros(5);
  }

  /** A subaccount id determines its address and its fitted label. */
  lemma SubaccountInjective(a: Address, b: Address, l: seq<Byte>, m: seq<Byte>)
    requires SubaccountId(a, l) == SubaccountId(b, m)
    ensures a == b && Label12(l) == Label12(m)
  {
    assert a == SubaccountId(a, l)[..20];
    assert b == SubaccountId(b, m)[..20];
    assert Label12(l) == SubaccountId(a, l)[20..];
    assert Label12(m) == SubaccountId(b, m)[20..];
  }

  /** Byte layout of a signer id: the address, then 12 zero bytes, whatever the address. */
  lemma SignerLayout(a: Address)
    ensures |SignerId(a)| == 32 && SignerId(a)[..20] == a && SignerId(a)[20..] == Zeros(12)
  {
  }

  /**
   * The two paddings are not interchangeable: no "default" subaccount id is a signer id,
   * since byte 20 is the letter 'd' in one and zero in the other.
   */
  lemma DefaultSubaccountIsNoSignerId(a: Address, b: Address)
    ensures SubaccountId(a, DEFAULT_LABEL) != SignerId(b)
  {
    assert SubaccountId(a, DEFAULT_LABEL)[20] == 0x64;
    assert SignerId(b)[20] == 0;
  }
}
