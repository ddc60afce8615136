/** Building the request of a send: client/resolve.ts, the `send` of client/evm.ts, client/sponsored-userop.ts,
    evm/sim-methods.ts and evm/userop.ts; and its agreement with the screen the popup shows for it. What the chain,
    the bundler and the paymaster answer are parameters; Err is a rejected call. */
module SendBuild {
  import opened Wrappers
  import opened Text
  import opened Requests
  import opened Consent
  import opened ConsentDisplay
  import opened CallScreens
  import opened PerformSign
  import opened Danger
  import opened Fees

  datatype Pending = Pending(chainId: int, address: string, nonce: nat)

  datatype ResolvedBatch = ResolvedBatch(
    rail: Rail,
    chainId: int,
    walletAddress: string,
    feeCalls: seq<Call>,
    userCalls: seq<Call>,
    authorization: Option<Pending>,
    nonce: nat,
    deadline: nat,
    disclosures: seq<string>,
    feeToken: Option<string>,
    nativeFee: Option<NativeFee>)

  datatype ChainProfile = ChainProfile(chainId: int, canonicalImplementation: string)

  /** What the chain answers while a batch is resolved. `gas` is the gas of each simulated call. */
  datatype Reads = Reads(
    code: Result<string>,
    implCode: Result<Option<string>>,
    txCount: Result<nat>,
    gas: Result<seq<nat>>,
    baseFee: Result<nat>,
    tip: Result<nat>)

  function DesignatorOf(implementation: string): string {
    "0xef0100" + if |implementation| >= 2 then implementation[2..] else ""
  }

  predicate IsDelegatedTo(code: string, implementation: string) {
    Lower(code) == Lower(DesignatorOf(implementation))
  }

  /** A wallet is delegated exactly when its code is the three bytes ef0100 and then the implementation's own, in any
      letter case. */
  lemma DelegatedIff(code: string, implementation: string)
    requires |implementation| >= 2
    ensures IsDelegatedTo(code, implementation) <==>
      |code| == |implementation| + 6 && Lower(code[..8]) == "0xef0100" && Lower(code[8..]) == Lower(implementation[2..])
  {
    var designator := "0xef0100" + implementation[2..];
    LowerSplits(code, 8);
    LowerSplits(designator, 8);
    assert designator[..8] == "0xef0100" && designator[8..] == implementation[2..];
    LowerKeeps("0xef0100");
    assert |Lower(code)| == |code| && |Lower(designator)| == |designator|;
  }

  lemma LowerSplits(s: string, n: nat)
    ensures n <= |s| ==> Lower(s) == Lower(s[..n]) + Lower(s[n..])
  {
  }

  lemma LowerKeeps(s: string)
    requires forall i :: 0 <= i < |s| ==> !('A' <= s[i] <= 'Z')
    ensures Lower(s) == s
  {
  }

  function RailOf(sponsored: bool, feeToken: Option<string>): Rail {
    if sponsored || (feeToken.Some? && feeToken.value != "") then Sponsored else NativeGas
  }

  /** The implementation is set, and has code on this chain. */
  predicate Deployed(chain: ChainProfile, answers: Reads) {
    && chain.canonicalImplementation != ZERO_ADDRESS
    && answers.implCode.Ok? && answers.implCode.value.Some?
    && answers.implCode.value.value != "" && answers.implCode.value.value != "0x"
  }

  predicate Priced(userCalls: seq<Call>, answers: Reads) {
    (userCalls == [] || answers.gas.Ok?) && answers.baseFee.Ok? && answers.tip.Ok?
  }

  /** Resolving commits no fee call and leaves the user's calls as they are; it delegates exactly when the wallet is not
      delegated yet, and only to a deployed implementation, on the batch's own chain. */
  method LeanResolve(chain: ChainProfile, address: string, userCalls: seq<Call>, sponsored: bool, feeToken: Option<string>,
                     nonce: nat, deadline: nat, answers: Reads) returns (r: Result<ResolvedBatch>)
    ensures r.Ok? <==>
      && answers.code.Ok?
      && (IsDelegatedTo(answers.code.value, chain.canonicalImplementation) || (Deployed(chain, answers) && answers.txCount.Ok?))
      && (!sponsored && (feeToken.None? || feeToken.value == "") ==> Priced(userCalls, answers))
    ensures r.Ok? ==>
      && (r.value.rail == Sponsored <==> sponsored || (feeToken.Some? && feeToken.value != ""))
      && r.value.chainId == chain.chainId && r.value.walletAddress == address
      && r.value.feeCalls == [] && r.value.userCalls == userCalls
      && r.value.nonce == nonce && r.value.deadline == deadline
      && r.value.feeToken == (if r.value.rail == Sponsored then feeToken else None)
      && (r.value.authorization.Some? <==> !IsDelegatedTo(answers.code.value, chain.canonicalImplementation))
      && (r.value.authorization.Some? ==>
            && r.value.authorization.value == Pending(r.value.chainId, chain.canonicalImplementation, answers.txCount.value)
            && r.value.disclosures == [chain.canonicalImplementation])
      && (r.value.nativeFee.Some? <==> r.value.rail == NativeGas)
      && (r.value.nativeFee.Some? ==>
            r.value.nativeFee.value.gasUnits
              == (if userCalls == [] then BASE_TX_GAS else SumGas(answers.gas.value))
                 + (if r.value.authorization.Some? then AUTH_7702_GAS else 0)
            && r.value.nativeFee.value.gasPrice == answers.baseFee.value + answers.tip.value)
  {
    var rail := RailOf(sponsored, feeToken);
    var feeCalls: seq<Call> := [];
    var disclosures: seq<string> := [];
    var nativeFee: Option<NativeFee> := None;
    var authorization: Option<Pending> := None;
    if answers.code.Err? { return Err(answers.code.message); }
    var implementation := chain.canonicalImplementation;
    if !IsDelegatedTo(answers.code.value, implementation) {
      if implementation == ZERO_ADDRESS { return Err("canonicalImplementation is unset"); }
      if answers.implCode.Err? { return Err(answers.implCode.message); }
      if answers.implCode.value.None? || answers.implCode.value.value == "" || answers.implCode.value.value == "0x" {
        return Err("canonicalImplementation is not deployed");
      }
      if answers.txCount.Err? { return Err(answers.txCount.message); }
      authorization := Some(Pending(chain.chainId, implementation, answers.txCount.value));
      disclosures := disclosures + [implementation];
    }
    if rail == NativeGas {
      var calls := feeCalls + userCalls;
      if calls != [] && answers.gas.Err? { return Err(answers.gas.message); }
      if answers.baseFee.Err? { return Err(answers.baseFee.message); }
      if answers.tip.Err? { return Err(answers.tip.message); }
      var gasUnits := NativeGasEstimate(calls, if calls == [] then [] else answers.gas.value, authorization.Some?);
      nativeFee := Some(EstimateNativeFee(gasUnits, answers.tip.value, answers.baseFee.value));
    }
    r := Ok(ResolvedBatch(rail, chain.chainId, address, feeCalls, userCalls, authorization, nonce, deadline, disclosures,
                          if rail == Sponsored then feeToken else None, nativeFee));
  }

  // ---- encoding ----

  /** `execute(MODE_BATCH, abi.encode(Call[]))`. */
  function EncodeExecuteBatch(k: Codec, calls: seq<Call>): Result<string> {
    match k.encodeBatch(calls)
    case None => Err("calls do not encode")
    case Some(data) => Ok(k.encodeExecute(MODE_BATCH, data))
  }

  function TripleOf(p: Pending): Authorization {
    Authorization(p.chainId, Some(p.address), None, p.nonce)
  }

  /** The native-gas request: the wallet's own transaction, and the authorization over the next nonce. */
  function NativeRequest(k: Codec, batch: ResolvedBatch, txNonce: nat, suggestedTip: nat, baseFee: nat): Result<SignRequest> {
    match EncodeExecuteBatch(k, batch.feeCalls + batch.userCalls)
    case Err(e) => Err(e)
    case Ok(data) =>
      var caps := NativeGasFees(suggestedTip, baseFee);
      Ok(SignSend(
        Tx(Some(batch.chainId), Some(batch.walletAddress), Some(0), Some(data), Some(GasLimit(batch.nativeFee)),
           Some(caps.maxFeePerGas), Some(caps.maxPriorityFeePerGas), Some(txNonce), "eip1559", []),
        match batch.authorization
        case None => None
        case Some(p) => Some(TripleOf(p.(nonce := txNonce + 1)))))
  }

  /** The native transaction is the wallet calling itself, with no value of its own, at the signer's nonce; its ceiling
      is twice the base fee and the tip, of which the tip goes to the validator; its gas limit twice the estimate. */
  lemma NativeRequestIs(k: Codec, batch: ResolvedBatch, txNonce: nat, suggestedTip: nat, baseFee: nat)
    requires NativeRequest(k, batch, txNonce, suggestedTip, baseFee).Ok?
    ensures var request := NativeRequest(k, batch, txNonce, suggestedTip, baseFee).value;
      && request.SignSend?
      && request.tx.to == Some(batch.walletAddress) && request.tx.chainId == Some(batch.chainId)
      && request.tx.value == Some(0) && request.tx.nonce == Some(txNonce)
      && request.tx.maxFeePerGas == Some(2 * baseFee + suggestedTip) && request.tx.maxPriorityFeePerGas == Some(suggestedTip)
      && (batch.nativeFee.Some? ==> request.tx.gas == Some(2 * batch.nativeFee.value.gasUnits))
      && (batch.nativeFee.None? ==> request.tx.gas == Some(1_000_000))
      && request.tx.kind == "eip1559" && request.tx.authorizationList == []
      && (request.authorization.Some? <==> batch.authorization.Some?)
      && (request.authorization.Some? ==>
            request.authorization.value
              == Authorization(batch.authorization.value.chainId, Some(batch.authorization.value.address), None, txNonce + 1))
  {
  }

  datatype GasLimits = GasLimits(call: nat, verification: nat, preVerification: nat)

  /** A user operation, filled in field by field. */
  method BuildUserOp(k: Codec, sender: string, calls: seq<Call>, nonce: nat, caps: Caps, gas: Option<GasLimits>,
                     paymaster: Option<Paymaster>, authorization: Option<SignedAuthorization>) returns (r: Result<UserOp>)
    ensures r.Ok? <==> EncodeExecuteBatch(k, calls).Ok?
    ensures r.Ok? ==>
      && r.value.callData == EncodeExecuteBatch(k, calls).value
      && r.value.sender == sender && r.value.nonce == nonce
      && Caps(r.value.maxFeePerGas, r.value.maxPriorityFeePerGas) == caps
      && GasLimits(r.value.callGasLimit, r.value.verificationGasLimit, r.value.preVerificationGas)
           == (if gas.Some? then gas.value else GasLimits(0, 0, 0))
      && r.value.paymaster == paymaster && r.value.authorization == authorization
  {
    var callData := EncodeExecuteBatch(k, calls);
    if callData.Err? { return Err(callData.message); }
    var op := UserOp(sender, nonce, callData.value, 0, 0, 0, caps.maxFeePerGas, caps.maxPriorityFeePerGas, None, None);
    if gas.Some? {
      op := op.(callGasLimit := gas.value.call, verificationGasLimit := gas.value.verification,
                preVerificationGas := gas.value.preVerification);
    }
    if paymaster.Some? { op := op.(paymaster := paymaster); }
    if authorization.Some? { op := op.(authorization := authorization); }
    r := Ok(op);
  }

  /** What the bundler estimates, and what the paymaster finally answers. */
  datatype BundlerGas = BundlerGas(limits: GasLimits, paymasterVerification: Option<nat>, postOp: Option<nat>)

  datatype Handshake = Handshake(
    nonce: Result<nat>,
    stub: Result<Paymaster>,
    gas: Result<BundlerGas>,
    data: Result<(string, string)>)

  datatype Prepared = Prepared(op: UserOp, chainId: int, entryPointVersion: string, authorization: Option<Pending>)

  function Else<T>(first: Option<T>, second: Option<T>): Option<T> { if first.Some? then first else second }

  /** The delegation as gas estimation sees it, before it is signed. */
  function StubAuthorization(pending: Option<Pending>): Option<SignedAuthorization> {
    match pending case None => None case Some(p) => Some(SignedAuthorization(p.chainId, p.address, p.nonce))
  }

  /** The prepared operation carries the user's calls whatever bundler and paymaster answer: their part is confined to
      gas limits and the paymaster fields. */
  method PrepareSponsored(k: Codec, batch: ResolvedBatch, caps: Caps, version: string, h: Handshake) returns (r: Result<Prepared>)
    ensures r.Ok? <==> h.nonce.Ok? && h.stub.Ok? && h.gas.Ok? && h.data.Ok? && EncodeExecuteBatch(k, batch.userCalls).Ok?
    ensures r.Ok? ==>
      && r.value.op.callData == EncodeExecuteBatch(k, batch.userCalls).value
      && r.value.op.sender == batch.walletAddress && r.value.op.nonce == h.nonce.value
      && Caps(r.value.op.maxFeePerGas, r.value.op.maxPriorityFeePerGas) == caps
      && GasLimits(r.value.op.callGasLimit, r.value.op.verificationGasLimit, r.value.op.preVerificationGas) == h.gas.value.limits
      && r.value.op.paymaster.Some?
      && r.value.op.paymaster.value.address == h.data.value.0 && r.value.op.paymaster.value.data == h.data.value.1
      && r.value.op.paymaster.value.verificationGasLimit
           == (if h.gas.value.paymasterVerification.Some? then h.gas.value.paymasterVerification else h.stub.value.verificationGasLimit)
      && r.value.op.paymaster.value.postOpGasLimit
           == (if h.gas.value.postOp.Some? then h.gas.value.postOp else h.stub.value.postOpGasLimit)
      && (r.value.op.authorization.Some? <==> batch.authorization.Some?)
      && (batch.authorization.Some? ==>
            var p := batch.authorization.value;
            r.value.op.authorization == Some(SignedAuthorization(p.chainId, p.address, p.nonce)))
      && r.value.chainId == batch.chainId && r.value.entryPointVersion == version
      && r.value.authorization == batch.authorization
  {
    var stubAuth := StubAuthorization(batch.authorization);
    if h.nonce.Err? { return Err(h.nonce.message); }
    var first := BuildUserOp(k, batch.walletAddress, batch.userCalls, h.nonce.value, caps, None, None, stubAuth);
    if first.Err? { return Err(first.message); }
    if h.stub.Err? { return Err(h.stub.message); }
    var second := BuildUserOp(k, batch.walletAddress, batch.userCalls, h.nonce.value, caps, None, Some(h.stub.value), stubAuth);
    if h.gas.Err? { return Err(h.gas.message); }
    var gas := h.gas.value;
    var third := BuildUserOp(k, batch.walletAddress, batch.userCalls, h.nonce.value, caps, Some(gas.limits), Some(h.stub.value), stubAuth);
    if h.data.Err? { return Err(h.data.message); }
    var paymaster := Paymaster(h.data.value.0, h.data.value.1,
                               Else(gas.paymasterVerification, h.stub.value.verificationGasLimit),
                               Else(gas.postOp, h.stub.value.postOpGasLimit));
    var last := BuildUserOp(k, batch.walletAddress, batch.userCalls, h.nonce.value, caps, Some(gas.limits), Some(paymaster), stubAuth);
    r := Ok(Prepared(last.value, batch.chainId, version, batch.authorization));
  }

  function AuthorizationOf(pending: Option<Pending>): Option<Authorization> {
    match pending case None => None case Some(p) => Some(TripleOf(p))
  }

  /** The request a prepared operation is signed with. */
  function UserOpRequest(p: Prepared): SignRequest {
    SignUserOp(p.op, p.chainId, p.entryPointVersion, AuthorizationOf(p.authorization))
  }

  // ---- what is built is what is shown ----

  lemma ExecuteUnwraps(k: Codec, calls: seq<Call>)
    requires RoundTrips(k) && EncodeExecuteBatch(k, calls).Ok?
    ensures UnwrapWalletBatch(k, EncodeExecuteBatch(k, calls).value) == Some(Batch(Normals(k, calls), []))
    ensures forall i :: 0 <= i < |calls| ==> k.checksum(calls[i].to).Some?
  {
    assert BatchRoundTrips(k, MODE_BATCH, calls);
  }

  /** Batched calls always decode, each to one line. */
  lemma NormalsDecode(k: Codec, chainId: int, calls: seq<Call>)
    requires RoundTrips(k) && forall i :: 0 <= i < |calls| ==> k.checksum(calls[i].to).Some?
    ensures var r := DecodeCalls(k, chainId, Normals(k, calls));
      r.Ok? && |r.value| == |calls|
      && forall i :: 0 <= i < |calls| ==> DecodeCall(k, chainId, Normal(k, calls[i])) == Ok(r.value[i])
  {
    var normals := Normals(k, calls);
    DecodeCallsPointwise(k, chainId, normals);
    assert forall i :: 0 <= i < |calls| ==> normals[i].to == k.checksum(calls[i].to).value;
  }

  /** A batch of the wallet's own decodes to a view of exactly its calls. */
  lemma BatchTxDecodes(k: Codec, tx: Tx, calls: seq<Call>)
    requires RoundTrips(k) && EncodeExecuteBatch(k, calls).Ok? && tx.data == Some(EncodeExecuteBatch(k, calls).value)
    requires tx.to.Some? && k.checksum(tx.to.value).Some?
    ensures var r := DecodeTxConsent(k, tx);
      r.Ok? && r.value == ConsentView(ChainOf(tx), r.value.calls, None, MaxFee(tx))
      && OneLinePerCall(k, r.value, Normals(k, calls))
  {
    ExecuteUnwraps(k, calls);
    NormalsDecode(k, ChainOf(tx), calls);
    var decoded := DecodeCalls(k, ChainOf(tx), Normals(k, calls)).value;
    assert [] + decoded == decoded;
  }

  function MaximumLine(k: Codec, batch: ResolvedBatch, tip: nat, baseFee: nat): Line {
    MaxFeeLine(k, batch.chainId, GasLimit(batch.nativeFee) * NativeGasFees(tip, baseFee).maxFeePerGas)
  }

  lemma NativeDecodes(k: Codec, batch: ResolvedBatch, txNonce: nat, tip: nat, baseFee: nat, tx: Tx, auth: Option<Authorization>)
    returns (view: ConsentView)
    requires RoundTrips(k) && k.checksum(batch.walletAddress).Some?
    requires NativeRequest(k, batch, txNonce, tip, baseFee) == Ok(SignSend(tx, auth))
    ensures DecodeTxConsent(k, tx) == Ok(view)
    ensures view.chainId == batch.chainId && FeeLines(k, view) == [MaximumLine(k, batch, tip, baseFee)]
    ensures OneLinePerCall(k, view, Normals(k, batch.feeCalls + batch.userCalls))
  {
    BatchTxDecodes(k, tx, batch.feeCalls + batch.userCalls);
    view := DecodeTxConsent(k, tx).value;
  }

  /** What is built is what is shown, native gas: the transaction built for a batch shows each of its calls (as the
      encoding normalises them), in order, and nothing else but the chain, the delegation and the maximum fee. */
  lemma NativeBuiltIsShown(k: Codec, batch: ResolvedBatch, txNonce: nat, tip: nat, baseFee: nat, request: SignRequest)
    requires RoundTrips(k) && k.checksum(batch.walletAddress).Some?
    requires NativeRequest(k, batch, txNonce, tip, baseFee) == Ok(request)
    ensures ShowsExactly(k, request, batch.chainId, Normals(k, batch.feeCalls + batch.userCalls),
                         [MaximumLine(k, batch, tip, baseFee)])
  {
    var view := NativeDecodes(k, batch, txNonce, tip, baseFee, request.tx, request.authorization);
    SendShown(k, request.tx, request.authorization, view, Normals(k, batch.feeCalls + batch.userCalls));
  }

  lemma BatchOpCalls(k: Codec, op: UserOp, calls: seq<Call>)
    requires RoundTrips(k) && EncodeExecuteBatch(k, calls).Ok? && op.callData == EncodeExecuteBatch(k, calls).value
    ensures UserOpCalls(k, op) == Normals(k, calls)
    ensures forall i :: 0 <= i < |calls| ==> k.checksum(calls[i].to).Some?
  {
    ExecuteUnwraps(k, calls);
  }

  /** What is built is what is shown, sponsored: an operation whose callData is the encoded batch shows each of its calls
      in order, and nothing else but the chain and the delegation. */
  lemma UserOpBuiltIsShown(k: Codec, p: Prepared, calls: seq<Call>)
    requires RoundTrips(k) && EncodeExecuteBatch(k, calls).Ok? && p.op.callData == EncodeExecuteBatch(k, calls).value
    ensures ShowsExactly(k, UserOpRequest(p), p.chainId, Normals(k, calls), [])
  {
    BatchOpCalls(k, p.op, calls);
    NormalsDecode(k, p.chainId, calls);
    UserOpShown(k, p.op, p.chainId, p.entryPointVersion, UserOpRequest(p).authorization,
                DecodeCalls(k, p.chainId, Normals(k, calls)).value, Normals(k, calls));
  }

  /** A call in plain hex is shown the same before and after encoding. */
  lemma NormalShownAlike(k: Codec, chainId: int, call: Call)
    requires RoundTrips(k) && k.checksum(call.to).Some? && k.bytes(call.data) == call.data
    ensures DecodeCall(k, chainId, Normal(k, call)) == DecodeCall(k, chainId, call)
  {
    var to := k.checksum(call.to).value;
    assert k.checksum(to) == Some(to);
  }

  /** The authorization signed with a native-gas send is valid where it is applied: it is embedded in the transaction,
      names the same chain and the resolved implementation, and is over the nonce the transaction leaves behind. */
  lemma AuthorizationFollowsTx(k: Codec, batch: ResolvedBatch, txNonce: nat, tip: nat, baseFee: nat, state: WalletState)
    requires batch.authorization.Some? && batch.authorization.value.chainId == batch.chainId
    requires NativeRequest(k, batch, txNonce, tip, baseFee).Ok?
    requires PerformSign.PerformSign(NativeRequest(k, batch, txNonce, tip, baseFee).value, state).Ok?
    ensures var signed := PerformSign.PerformSign(NativeRequest(k, batch, txNonce, tip, baseFee).value, state).value;
      && !IsRosterSigner(state)
      && |signed| == 2 && signed[0].AuthorizationSignature? && signed[1].TxSignature?
      && signed[1].tx.authorizationList == [signed[0].authorization]
      && signed[0].authorization.delegate == batch.authorization.value.address
      && signed[1].tx.chainId == Some(signed[0].authorization.chainId)
      && signed[1].tx.nonce.Some? && signed[0].authorization.nonce == signed[1].tx.nonce.value + 1
  {
  }

  // ---- simulating and sending ----

  predicate OnSponsoredRail(batch: ResolvedBatch, canSponsor: bool) { batch.rail == Sponsored && canSponsor }

  /** The prepared operation is one of this batch. */
  predicate Carries(k: Codec, batch: ResolvedBatch, p: Prepared) {
    && EncodeExecuteBatch(k, batch.userCalls) == Ok(p.op.callData)
    && p.op.sender == batch.walletAddress && p.chainId == batch.chainId && p.authorization == batch.authorization
  }

  /** What `simulate` hands to the application, and the application back to `send`. */
  datatype Simulation = Simulation(batch: ResolvedBatch, prepared: Option<Prepared>, fee: Option<NativeFee>)

  /** A simulation carries the operation of its own batch, and the fee it shows is that operation's. `ran` is whether the
      simulation of the batch itself succeeded in answering. */
  method Simulate(k: Codec, chain: ChainProfile, address: string, userCalls: seq<Call>, sponsored: bool, feeToken: Option<string>,
                  nonce: nat, deadline: nat, answers: Reads, ran: Result<()>, canSponsor: bool, version: string, h: Handshake)
    returns (r: Result<Simulation>)
    ensures r.Ok? ==>
      && r.value.batch.feeCalls == [] && r.value.batch.userCalls == userCalls && r.value.batch.walletAddress == address
      && r.value.batch.chainId == chain.chainId
      && (r.value.prepared.Some? <==> r.value.batch.rail == Sponsored && canSponsor)
      && (r.value.prepared.Some? ==> Carries(k, r.value.batch, r.value.prepared.value))
      && (r.value.fee.Some? <==> r.value.prepared.Some? && feeToken.Some? && feeToken.value != "")
      && (r.value.fee.Some? ==> r.value.fee == Some(BoundedSponsoredFee(r.value.prepared.value.op)))
  {
    var batch := LeanResolve(chain, address, userCalls, sponsored, feeToken, nonce, deadline, answers);
    if batch.Err? { return Err(batch.message); }
    if ran.Err? { return Err(ran.message); }
    if !OnSponsoredRail(batch.value, canSponsor) { return Ok(Simulation(batch.value, None, None)); }
    if answers.tip.Err? { return Err(answers.tip.message); }
    if answers.baseFee.Err? { return Err(answers.baseFee.message); }
    var prepared := PrepareSponsored(k, batch.value, NativeGasFees(answers.tip.value, answers.baseFee.value), version, h);
    if prepared.Err? { return Err(prepared.message); }
    var token := batch.value.feeToken;
    var fee := if token.Some? && token.value != "" then Some(BoundedSponsoredFee(prepared.value.op)) else None;
    r := Ok(Simulation(batch.value, Some(prepared.value), fee));
  }

  /** The request is the batch's own: its calls encoded, its chain, and its delegation. */
  predicate BuiltFrom(k: Codec, batch: ResolvedBatch, sponsored: bool, txNonce: nat, tip: nat, baseFee: nat, request: SignRequest) {
    if sponsored then
      && request.SignUserOp?
      && EncodeExecuteBatch(k, batch.userCalls) == Ok(request.userOp.callData)
      && request.userOp.sender == batch.walletAddress
      && request.chainId == batch.chainId
      && (request.authorization.Some? <==> batch.authorization.Some?)
      && (batch.authorization.Some? ==>
            var p := batch.authorization.value;
            request.authorization.value == Authorization(p.chainId, Some(p.address), None, p.nonce))
    else NativeRequest(k, batch, txNonce, tip, baseFee) == Ok(request)
  }

  function OrZero(answer: Result<nat>): nat { if answer.Ok? then answer.value else 0 }

  /** The request of `send`. A reused simulation brings its prepared operation; otherwise one is prepared. A sponsored
      batch without the infrastructure goes out as native gas. Either way the request is the batch's own. */
  method Send(k: Codec, batch: ResolvedBatch, canSponsor: bool, reused: Option<Prepared>, version: string,
              h: Handshake, txCount: Result<nat>, tip: Result<nat>, baseFee: Result<nat>) returns (r: Result<SignRequest>)
    ensures r.Ok? && batch.rail == Sponsored && canSponsor ==> r.value.SignUserOp?
    ensures r.Ok? && batch.rail == Sponsored && canSponsor && reused.Some? ==>
      && r.value.userOp == reused.value.op && r.value.chainId == reused.value.chainId
      && r.value.entryPointVersion == reused.value.entryPointVersion
      && r.value.authorization == AuthorizationOf(reused.value.authorization)
    ensures r.Ok? && batch.rail == Sponsored && canSponsor && reused.None? ==>
      && h.nonce.Ok? && tip.Ok? && baseFee.Ok?
      && r.value.userOp.nonce == h.nonce.value && r.value.entryPointVersion == version
      && r.value.userOp.maxFeePerGas == 2 * baseFee.value + tip.value && r.value.userOp.maxPriorityFeePerGas == tip.value
    ensures r.Ok? && !(batch.rail == Sponsored && canSponsor) ==> txCount.Ok? && tip.Ok? && baseFee.Ok?
    ensures r.Ok? && (reused.None? || Carries(k, batch, reused.value) || !(batch.rail == Sponsored && canSponsor)) ==>
      BuiltFrom(k, batch, batch.rail == Sponsored && canSponsor, OrZero(txCount), OrZero(tip), OrZero(baseFee), r.value)
  {
    if OnSponsoredRail(batch, canSponsor) {
      if reused.Some? { return Ok(UserOpRequest(reused.value)); }
      if tip.Err? { return Err(tip.message); }
      if baseFee.Err? { return Err(baseFee.message); }
      var prepared := PrepareSponsored(k, batch, NativeGasFees(tip.value, baseFee.value), version, h);
      if prepared.Err? { return Err(prepared.message); }
      return Ok(UserOpRequest(prepared.value));
    }
    if txCount.Err? { return Err(txCount.message); }
    if tip.Err? { return Err(tip.message); }
    if baseFee.Err? { return Err(baseFee.message); }
    r := NativeRequest(k, batch, txCount.value, tip.value, baseFee.value);
  }

  /** What is sent is what is shown: for every batch without fee calls, as resolving gives it, the request `send` builds
      has a screen of exactly the user's calls in order; beyond them it has the chain, the batch's own delegation and, on
      the native rail, the maximum fee. A valid wallet address is all it takes. */
  lemma SentIsShown(k: Codec, batch: ResolvedBatch, sponsored: bool, txNonce: nat, tip: nat, baseFee: nat, request: SignRequest)
    requires RoundTrips(k) && batch.feeCalls == [] && (!sponsored ==> k.checksum(batch.walletAddress).Some?)
    requires BuiltFrom(k, batch, sponsored, txNonce, tip, baseFee, request)
    ensures ShowsExactly(k, request, batch.chainId, Normals(k, batch.userCalls),
                         if sponsored then [] else [MaximumLine(k, batch, tip, baseFee)])
    ensures ShowsDelegationOf(k, request, batch)
  {
    assert [] + batch.userCalls == batch.userCalls;
    if sponsored {
      BatchOpCalls(k, request.userOp, batch.userCalls);
      NormalsDecode(k, batch.chainId, batch.userCalls);
      UserOpShown(k, request.userOp, request.chainId, request.entryPointVersion, request.authorization,
                  DecodeCalls(k, batch.chainId, Normals(k, batch.userCalls)).value, Normals(k, batch.userCalls));
    } else {
      NativeBuiltIsShown(k, batch, txNonce, tip, baseFee, request);
    }
    DelegationShown(k, request, batch);
  }

  /** The consent carries the delegation to the batch's implementation, and none without it. */
  predicate ShowsDelegationOf(k: Codec, request: SignRequest, batch: ResolvedBatch) {
    var r := DecodeSignConsent(k, request);
    && r.Ok? && (r.value.SendConsent? || r.value.SponsoredConsent? || r.value.UserOpConsent?)
    && r.value.delegation == if batch.authorization.Some? then Some(batch.authorization.value.address) else None
  }

  lemma DelegationShown(k: Codec, request: SignRequest, batch: ResolvedBatch)
    requires DecodeSignConsent(k, request).Ok? && IsComposite(request)
    requires Delegation(request.authorization) == if batch.authorization.Some? then Some(batch.authorization.value.address) else None
    ensures ShowsDelegationOf(k, request, batch)
  {
    CompositeShowsDelegation(k, request);
  }
}
