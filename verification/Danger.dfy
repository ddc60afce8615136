/** What the consent screen treats as dangerous (auth-popup/sign/danger.ts). */
module Danger {
  import opened Wrappers
  import opened Text

  datatype Severity = Info | Caution | Danger

  /** 2^159, the threshold that also catches Permit2's uint160 maximum. */
  const UNLIMITED_UINT160_THRESHOLD: nat := 0x8000_0000_0000_0000_0000_0000_0000_0000_0000_0000

  /** False for text that BigInt cannot read. */
  predicate IsUnlimitedAmount(baseUnits: string) {
    match ParseBigInt(baseUnits)
    case None => false
    case Some(n) => n >= UNLIMITED_UINT160_THRESHOLD
  }

  const DANGEROUS_PRIMARY_TYPES: map<string, string> := map[
    "Permit" := "This signature lets someone spend your tokens without a transaction.",
    "PermitSingle" := "This Permit2 signature lets someone spend your tokens without a transaction.",
    "PermitBatch" := "This Permit2 signature lets someone spend several of your tokens without a transaction.",
    "PermitTransferFrom" := "This Permit2 signature lets someone move your tokens without a transaction.",
    "PermitBatchTransferFrom" := "This Permit2 signature lets someone move several of your tokens without a transaction."
  ]

  function DangerousPrimaryType(primaryType: string): Option<string> {
    if primaryType in DANGEROUS_PRIMARY_TYPES then Some(DANGEROUS_PRIMARY_TYPES[primaryType]) else None
  }

  /** On printed amounts the test is exactly the numeric threshold. */
  lemma UnlimitedExactly(n: nat)
    ensures IsUnlimitedAmount(NatToString(n)) <==> n >= UNLIMITED_UINT160_THRESHOLD
  {
    BigIntRoundTrip(n);
    assert IntToString(n) == NatToString(n);
  }

  /** The same of an amount written in hexadecimal. */
  lemma HexUnlimitedExactly(n: nat, upper: bool)
    ensures IsUnlimitedAmount("0x" + NatToHex(n, upper)) <==> n >= UNLIMITED_UINT160_THRESHOLD
  {
    HexRoundTrip(n, upper, 'x');
    assert ['0', 'x'] + NatToHex(n, upper) == "0x" + NatToHex(n, upper);
  }
}
