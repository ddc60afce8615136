/** Signing requests as they reach the popup, and the parts of viem they are read with. Addresses and hex data are
    kept as text; hex data is in lower case. */
module Requests {
  import opened Wrappers
  import TypedDataFields

  datatype Rail = NativeGas | Sponsored

  datatype Call = Call(to: string, value: int, data: string)

  datatype TokenProfile = TokenProfile(symbol: string, decimals: nat)

  /** What decoding against the ERC-20 ABI gives. */
  datatype Erc20Call =
    | Transfer(dest: string, amount: nat)
    | Approve(spender: string, amount: nat)
    | TransferFrom(source: string, dest: string, amount: nat)
    | OtherErc20

  /** What decoding against the two extra approval selectors gives. */
  datatype ApprovalCall =
    | SetApprovalForAll(operator: string, approved: bool)
    | IncreaseAllowance(spender: string, added: nat)

  /** What decoding against the wallet's own ABI gives. */
  datatype WalletCall = Execute(mode: string, executionData: string) | OtherWallet

  /** The functions of viem and of the token registry that the consent pipeline calls. None stands for a throw.
      `checksum` is getAddress, `units` is formatUnits, `batch` decodes and `encodeBatch` encodes the Call[] tuple
      array, and `bytes` is the hex text that a bytes field comes back as (lower case, whole bytes). */
  datatype Codec = Codec(
    checksum: string -> Option<string>,
    erc20: string -> Option<Erc20Call>,
    approval: string -> Option<ApprovalCall>,
    wallet: string -> Option<WalletCall>,
    batch: string -> Option<seq<Call>>,
    encodeBatch: seq<Call> -> Option<string>,
    encodeExecute: (string, string) -> string,
    bytes: string -> string,
    profile: (int, string) -> Option<TokenProfile>,
    units: (int, nat) -> string)

  const MODE_BATCH := "0x0100000000000000000000000000000000000000000000000000000000000000"
  const ZERO_ADDRESS := "0x0000000000000000000000000000000000000000"

  /** A call as the ABI hands it back: the address in checksummed text, the data in plain hex. */
  function Normal(k: Codec, c: Call): Call {
    Call(if k.checksum(c.to).Some? then k.checksum(c.to).value else c.to, c.value, k.bytes(c.data))
  }

  function Normals(k: Codec, cs: seq<Call>): (r: seq<Call>)
    ensures |r| == |cs| && forall i :: 0 <= i < |cs| ==> r[i] == Normal(k, cs[i])
  {
    seq(|cs|, i requires 0 <= i < |cs| => Normal(k, cs[i]))
  }

  ghost predicate BatchRoundTrips(k: Codec, mode: string, calls: seq<Call>) {
    k.encodeBatch(calls).Some? ==>
      var data := k.encodeBatch(calls).value;
      && (forall i :: 0 <= i < |calls| ==> k.checksum(calls[i].to).Some?)
      && k.wallet(k.encodeExecute(mode, data)) == Some(Execute(mode, data))
      && k.batch(data) == Some(Normals(k, calls))
  }

  /** What is assumed of the codec: a batch that encodes has valid addresses and comes back, out of the wallet's own
      `execute(MODE_BATCH, Call[])`, as the same calls in their normal form; a checksummed address is its own
      checksum. */
  ghost predicate RoundTrips(k: Codec) {
    && (forall calls: seq<Call> :: BatchRoundTrips(k, MODE_BATCH, calls))
    && (forall a :: k.checksum(a).Some? ==> k.checksum(k.checksum(a).value) == k.checksum(a))
  }

  /** A codec that knows one list of calls. */
  function OneBatchCodec(mode: string, calls: seq<Call>): Codec {
    Codec(
      a => Some(a),
      d => None,
      d => None,
      d => Some(Execute(mode, d)),
      d => Some(calls),
      cs => if cs == calls then Some("") else None,
      (m, d) => d,
      d => d,
      (chainId, token) => None,
      (n, decimals) => "")
  }

  lemma OneBatchRoundTrips(mode: string, calls: seq<Call>, cs: seq<Call>)
    ensures BatchRoundTrips(OneBatchCodec(mode, calls), mode, cs)
  {
    if cs == calls { assert Normals(OneBatchCodec(mode, calls), calls) == calls; }
  }

  /** The assumption can be met, with any list of calls encoded. */
  lemma RoundTripsCanHold(calls: seq<Call>)
    ensures RoundTrips(OneBatchCodec(MODE_BATCH, calls)) && OneBatchCodec(MODE_BATCH, calls).encodeBatch(calls).Some?
  {
    forall cs: seq<Call> ensures BatchRoundTrips(OneBatchCodec(MODE_BATCH, calls), MODE_BATCH, cs) {
      OneBatchRoundTrips(MODE_BATCH, calls, cs);
    }
  }

  datatype Authorization = Authorization(chainId: int, address: Option<string>, contractAddress: Option<string>, nonce: nat)

  datatype SignedAuthorization = SignedAuthorization(chainId: int, delegate: string, nonce: nat)

  datatype Tx = Tx(
    chainId: Option<int>,
    to: Option<string>,
    value: Option<int>,
    data: Option<string>,
    gas: Option<nat>,
    maxFeePerGas: Option<nat>,
    maxPriorityFeePerGas: Option<nat>,
    nonce: Option<nat>,
    kind: string,
    authorizationList: seq<SignedAuthorization>)

  datatype Domain = Domain(name: Option<string>, version: Option<string>, chainId: Option<int>, verifyingContract: Option<string>)

  datatype TypedData = TypedData(domain: Domain, primaryType: Option<string>, message: Option<TypedDataFields.Value>)

  datatype Paymaster = Paymaster(address: string, data: string, verificationGasLimit: Option<nat>, postOpGasLimit: Option<nat>)

  datatype UserOp = UserOp(
    sender: string,
    nonce: nat,
    callData: string,
    callGasLimit: nat,
    verificationGasLimit: nat,
    preVerificationGas: nat,
    maxFeePerGas: nat,
    maxPriorityFeePerGas: nat,
    paymaster: Option<Paymaster>,
    authorization: Option<SignedAuthorization>)

  datatype SignRequest =
    | SignMessage(message: string)
    | SignTypedData(typedData: TypedData)
    | SignSiwe(fields: map<string, string>, resources: Option<seq<string>>)
    | SignAuthorization(auth: Authorization)
    | SignTransaction(tx: Tx)
    | SignSend(tx: Tx, authorization: Option<Authorization>)
    | SignSponsored(typedData: TypedData, authorization: Option<Authorization>)
    | SignUserOp(userOp: UserOp, chainId: int, entryPointVersion: string, authorization: Option<Authorization>)
}
