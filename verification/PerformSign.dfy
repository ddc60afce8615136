/** What the popup signs for an approved request (auth-popup/sign/perform-sign.ts), and its agreement with what the
    screen showed. */
module PerformSign {
  import opened Wrappers
  import opened Text
  import opened Requests
  import opened Consent
  import opened ConsentDisplay
  import opened Danger
  import TypedDataFields

  /** This device's own key address, and the wallet it signs for. */
  datatype WalletState = WalletState(evmAddress: string, walletAddress: string)

  /** One signature, with everything it commits to. */
  datatype Signature =
    | MessageSignature(message: string)
    | TypedDataSignature(typedData: TypedData)
    | SiweSignature(fields: map<string, string>, resources: Option<seq<string>>, address: string)
    | AuthorizationSignature(authorization: SignedAuthorization)
    | TxSignature(tx: Tx)
    | UserOpSignature(userOp: UserOp, chainId: int, entryPointVersion: string, wrapped: bool)

  /** The wallet is not this device's own key, letter case apart. */
  predicate IsRosterSigner(state: WalletState) {
    Lower(state.walletAddress) != Lower(state.evmAddress)
  }

  /** The account signs `contractAddress` when given, else `address`; neither cannot be hashed. */
  function SignAuth(auth: Authorization): Result<SignedAuthorization> {
    var delegate := if auth.contractAddress.Some? then auth.contractAddress else auth.address;
    if delegate.None? then Err("nothing to delegate to")
    else Ok(SignedAuthorization(auth.chainId, delegate.value, auth.nonce))
  }

  const ROSTER_REFUSED := "A roster signer cannot authorize an EIP-7702 delegation"
  const ROSTER_UNSUPPORTED := "not yet supported for a roster (non-founding) signer"

  function EmbedAuthorization(tx: Tx, signed: SignedAuthorization): Tx {
    tx.(kind := "eip7702", authorizationList := [signed])
  }

  /** The signatures one approval yields, in order; Err stands for a throw. */
  function PerformSign(request: SignRequest, state: WalletState): Result<seq<Signature>> {
    var roster := Lower(state.walletAddress) != Lower(state.evmAddress);
    match request
    case SignMessage(message) =>
      if roster then Err(ROSTER_UNSUPPORTED) else Ok([MessageSignature(message)])
    case SignTypedData(td) =>
      if roster then Err(ROSTER_UNSUPPORTED) else Ok([TypedDataSignature(td)])
    case SignSiwe(fields, resources) =>
      if roster then Err(ROSTER_UNSUPPORTED) else Ok([SiweSignature(fields, resources, state.walletAddress)])
    case SignAuthorization(auth) =>
      if roster then Err(ROSTER_REFUSED) else
      (match SignAuth(auth) case Err(e) => Err(e) case Ok(signed) => Ok([AuthorizationSignature(signed)]))
    case SignTransaction(tx) => Ok([TxSignature(tx)])
    case SignSend(tx, None) => Ok([TxSignature(tx)])
    case SignSend(tx, Some(auth)) =>
      if roster then Err(ROSTER_REFUSED) else
      (match SignAuth(auth)
       case Err(e) => Err(e)
       case Ok(signed) => Ok([AuthorizationSignature(signed), TxSignature(EmbedAuthorization(tx, signed))]))
    case SignSponsored(td, None) => Ok([TypedDataSignature(td)])
    case SignSponsored(td, Some(auth)) =>
      (match SignAuth(auth)
       case Err(e) => Err(e)
       case Ok(signed) => Ok([AuthorizationSignature(signed), TypedDataSignature(td)]))
    case SignUserOp(op, chainId, version, None) => Ok([UserOpSignature(op, chainId, version, roster)])
    case SignUserOp(op, chainId, version, Some(auth)) =>
      if roster then Err(ROSTER_REFUSED) else
      match SignAuth(auth)
      case Err(e) => Err(e)
      case Ok(signed) => Ok([AuthorizationSignature(signed), UserOpSignature(op, chainId, version, false)])
  }

  // ---- what each signature commits to ----

  /** The authorization signed is the one carried: its chain, its nonce, and `contractAddress` before `address`. */
  predicate CommitsToAuthorization(auth: Authorization, s: Signature) {
    && s.AuthorizationSignature?
    && s.authorization.chainId == auth.chainId && s.authorization.nonce == auth.nonce
    && (auth.contractAddress.Some? ==> s.authorization.delegate == auth.contractAddress.value)
    && (auth.contractAddress.None? ==> auth.address == Some(s.authorization.delegate))
  }

  /** The transaction is signed as it came, but for what embedding the signed authorizations takes. */
  predicate SameTransaction(signed: Tx, tx: Tx, embedded: seq<SignedAuthorization>) {
    if embedded == [] then signed == tx
    else signed.kind == "eip7702" && signed.authorizationList == embedded
         && signed.(kind := tx.kind, authorizationList := tx.authorizationList) == tx
  }

  /** Field by field, the signature is over this request's own content. */
  predicate CommitsTo(request: SignRequest, state: WalletState, s: Signature, embedded: seq<SignedAuthorization>) {
    match request
    case SignMessage(message) => s == MessageSignature(message)
    case SignTypedData(td) => s == TypedDataSignature(td)
    case SignSponsored(td, _) => s == TypedDataSignature(td)
    case SignSiwe(fields, resources) => s == SiweSignature(fields, resources, state.walletAddress)
    case SignTransaction(tx) => s == TxSignature(tx)
    case SignSend(tx, _) => s.TxSignature? && SameTransaction(s.tx, tx, embedded)
    case SignUserOp(op, chainId, version, _) => s == UserOpSignature(op, chainId, version, IsRosterSigner(state))
    case SignAuthorization(_) => false
  }

  /** One approval signs exactly this: the carried authorization, if there is one, and then one signature over the
      request's own content, unless the request is nothing but an authorization. */
  lemma SignsTheRequest(request: SignRequest, state: WalletState)
    requires PerformSign(request, state).Ok?
    ensures var signed := PerformSign(request, state).value;
      var auth := AuthOf(request);
      var first := if auth.Some? then 1 else 0;
      && |signed| == first + (if request.SignAuthorization? then 0 else 1)
      && (auth.Some? ==> CommitsToAuthorization(auth.value, signed[0]))
      && (!request.SignAuthorization? ==>
            CommitsTo(request, state, signed[first], if auth.Some? then [signed[0].authorization] else []))
  {
  }

  /** It is refused exactly where a roster device would sign a message, typed data, a sign-in or a delegation, and where
      an authorization names no delegate. */
  lemma RefusedIff(request: SignRequest, state: WalletState)
    ensures PerformSign(request, state).Err? <==>
      || (IsRosterSigner(state) &&
            (request.SignMessage? || request.SignTypedData? || request.SignSiwe? || request.SignAuthorization?
             || ((request.SignSend? || request.SignUserOp?) && request.authorization.Some?)))
      || (AuthOf(request).Some? && AuthOf(request).value.address.None? && AuthOf(request).value.contractAddress.None?)
  {
  }

  /** The consent that the bytes of one signature would decode to, read on their own. */
  function ConsentOf(k: Codec, s: Signature): Result<SignConsent> {
    match s
    case MessageSignature(message) => DecodeSignConsent(k, SignMessage(message))
    case TypedDataSignature(td) => DecodeSignConsent(k, SignTypedData(td))
    case SiweSignature(fields, resources, _) => DecodeSignConsent(k, SignSiwe(fields, resources))
    case AuthorizationSignature(a) =>
      DecodeSignConsent(k, SignAuthorization(Authorization(a.chainId, Some(a.delegate), None, a.nonce)))
    case TxSignature(tx) => DecodeSignConsent(k, SignTransaction(tx))
    case UserOpSignature(op, chainId, version, _) => DecodeSignConsent(k, SignUserOp(op, chainId, version, None))
  }

  predicate SameConsent(shown: SignConsent, alone: SignConsent) {
    if ViewOf(shown).Some? then ViewOf(alone) == ViewOf(shown) else alone == shown
  }

  lemma EmbeddingIsUnseen(k: Codec, tx: Tx, signed: SignedAuthorization)
    ensures DecodeTxConsent(k, EmbedAuthorization(tx, signed)) == DecodeTxConsent(k, tx)
  {
    var embedded := EmbedAuthorization(tx, signed);
    assert OuterCall(k, embedded) == OuterCall(k, tx) && ChainOf(embedded) == ChainOf(tx) && MaxFee(embedded) == MaxFee(tx);
  }

  lemma CompositeSignedIsShown(k: Codec, request: SignRequest, state: WalletState, n: nat)
    requires IsComposite(request)
    requires DecodeSignConsent(k, request).Ok? && PerformSign(request, state).Ok?
    requires n < |PerformSign(request, state).value| && !PerformSign(request, state).value[n].AuthorizationSignature?
    ensures var alone := ConsentOf(k, PerformSign(request, state).value[n]);
      alone.Ok? && SameConsent(DecodeSignConsent(k, request).value, alone.value)
  {
    match request
    case SignSend(tx, Some(auth)) => EmbeddingIsUnseen(k, tx, SignAuth(auth).value);
    case _ =>
  }

  /** Shown is signed: whatever is signed after an approval decodes, on its own, to the very view of calls, message
      or fields that was on the screen. */
  lemma SignedIsShown(k: Codec, request: SignRequest, state: WalletState, n: nat)
    requires DecodeSignConsent(k, request).Ok? && PerformSign(request, state).Ok?
    requires n < |PerformSign(request, state).value| && !PerformSign(request, state).value[n].AuthorizationSignature?
    ensures var alone := ConsentOf(k, PerformSign(request, state).value[n]);
      alone.Ok? && SameConsent(DecodeSignConsent(k, request).value, alone.value)
  {
    if IsComposite(request) {
      CompositeSignedIsShown(k, request, state, n);
    }
  }

  /** The authorization carried by a request, if any. */
  function AuthOf(request: SignRequest): Option<Authorization> {
    match request
    case SignAuthorization(auth) => Some(auth)
    case SignSend(_, auth) => auth
    case SignSponsored(_, auth) => auth
    case SignUserOp(_, _, _, auth) => auth
    case _ => None
  }

  /** The channel's {chainId, address, nonce} triple. */
  predicate IsTriple(a: Authorization) {
    a.address.Some? && a.address.value != "" && a.contractAddress.None?
  }

  /** An EIP-7702 authorization is signed only if the request carries it, and for a founding device. */
  lemma AuthorizationSigned(request: SignRequest, state: WalletState, n: nat)
    requires PerformSign(request, state).Ok? && n < |PerformSign(request, state).value|
    requires PerformSign(request, state).value[n].AuthorizationSignature?
    ensures AuthOf(request).Some? && SignAuth(AuthOf(request).value) == Ok(PerformSign(request, state).value[n].authorization)
    ensures n == 0 && (request.SignSponsored? || !IsRosterSigner(state))
  {
  }

  lemma HeadDanger(lines: seq<Line>)
    requires lines != [] && lines[0].severity == Danger
    ensures HighestSeverity(lines) == Danger
  {
    DangerIffSome(lines);
  }

  predicate ShowsDelegation(c: SignConsent) {
    (c.SendConsent? || c.SponsoredConsent? || c.UserOpConsent?) && c.delegation.Some? && c.delegation.value != ""
  }

  /** The lines that stand before those of the view. */
  function Prefix(c: SignConsent): seq<Line> {
    match c
    case SendConsent(view, delegation) => DelegationLines(delegation, " on " + ChainLabel(view.chainId))
    case SponsoredConsent(_, delegation) => DelegationLines(delegation, "")
    case UserOpConsent(view, delegation) => DelegationLines(delegation, " on " + ChainLabel(view.chainId))
    case _ => []
  }

  lemma FormatShape(k: Codec, c: SignConsent)
    requires ViewOf(c).Some?
    ensures FormatConsentDisplay(k, c) == Prefix(c) + EvmViewLines(k, ViewOf(c).value)
  {
    var lines := EvmViewLines(k, ViewOf(c).value);
    assert [] + lines == lines;
  }

  lemma UpgradeNamed(delegate: string, place: string)
    ensures Mentions("Authorize account upgrade to " + delegate + place, delegate)
  {
    MentionsAt("Authorize account upgrade to ", delegate, place);
  }

  lemma DelegationFirst(delegation: Option<string>, place: string)
    requires delegation.Some? && delegation.value != ""
    ensures var lines := DelegationLines(delegation, place);
      lines != [] && lines[0].severity == Danger && Mentions(lines[0].text, delegation.value)
  {
    UpgradeNamed(delegation.value, place);
  }

  lemma PrefixNamesDelegate(c: SignConsent)
    requires ShowsDelegation(c)
    ensures Prefix(c) != [] && Prefix(c)[0].severity == Danger && Mentions(Prefix(c)[0].text, c.delegation.value)
  {
    DelegationFirst(c.delegation, if c.SponsoredConsent? then "" else " on " + ChainLabel(c.view.chainId));
  }

  ghost predicate NamesDelegate(lines: seq<Line>, delegate: string) {
    HighestSeverity(lines) == Danger && lines != [] && Mentions(lines[0].text, delegate)
  }

  lemma BareDelegation(k: Codec, chainId: int, implementation: string)
    ensures var lines := FormatConsentDisplay(k, AuthorizationConsent(chainId, implementation));
      NamesDelegate(lines, implementation)
  {
    UpgradeNamed(implementation, " on " + ChainLabel(chainId));
    var lines := FormatConsentDisplay(k, AuthorizationConsent(chainId, implementation));
    assert lines[0].text == "Authorize account upgrade to " + implementation + (" on " + ChainLabel(chainId));
    HeadDanger(lines);
  }

  lemma CompositeShowsDelegation(k: Codec, request: SignRequest)
    requires IsComposite(request)
    requires DecodeSignConsent(k, request).Ok?
    ensures var shown := DecodeSignConsent(k, request).value;
      (shown.SendConsent? || shown.SponsoredConsent? || shown.UserOpConsent?)
      && shown.delegation == Delegation(request.authorization)
  {
  }

  lemma TripleSigned(request: SignRequest, state: WalletState)
    requires PerformSign(request, state).Ok? && AuthOf(request).Some? && IsTriple(AuthOf(request).value)
    ensures PerformSign(request, state).value[0].AuthorizationSignature?
    ensures PerformSign(request, state).value[0].authorization.delegate == AuthOf(request).value.address.value
  {
  }

  lemma DelegationOnScreen(k: Codec, shown: SignConsent)
    requires ShowsDelegation(shown)
    ensures NamesDelegate(FormatConsentDisplay(k, shown), shown.delegation.value)
  {
    FormatShape(k, shown);
    PrefixNamesDelegate(shown);
    HeadDanger(FormatConsentDisplay(k, shown));
  }

  lemma CompositeDelegation(k: Codec, request: SignRequest)
    requires IsComposite(request)
    requires DecodeSignConsent(k, request).Ok? && request.authorization.Some? && IsTriple(request.authorization.value)
    ensures NamesDelegate(FormatConsentDisplay(k, DecodeSignConsent(k, request).value), request.authorization.value.address.value)
  {
    CompositeShowsDelegation(k, request);
    DelegationOnScreen(k, DecodeSignConsent(k, request).value);
  }

  /** Danger is never diluted, delegation: whenever an authorization given as the channel's triple would be signed,
      the screen is at danger and its first line names the delegate (for a bare authorization, in checksummed text). */
  lemma DelegationIsDanger(k: Codec, request: SignRequest, state: WalletState)
    requires DecodeSignConsent(k, request).Ok? && PerformSign(request, state).Ok?
    requires AuthOf(request).Some? && IsTriple(AuthOf(request).value)
    ensures var delegate := AuthOf(request).value.address.value;
      && PerformSign(request, state).value[0].AuthorizationSignature?
      && PerformSign(request, state).value[0].authorization.delegate == delegate
      && NamesDelegate(FormatConsentDisplay(k, DecodeSignConsent(k, request).value),
                       if request.SignAuthorization? then k.checksum(delegate).value else delegate)
  {
    TripleSigned(request, state);
    if request.SignAuthorization? {
      var shown := DecodeSignConsent(k, request).value;
      BareDelegation(k, shown.chainId, shown.implementation);
    } else {
      CompositeDelegation(k, request);
    }
  }

  /** For a bare authorization the delegate shown is the delegate signed exactly when the request does not name two
      different ones: the screen reads `address` first, the account signs `contractAddress` first. */
  lemma ShownDelegateIff(k: Codec, auth: Authorization, state: WalletState)
    requires DecodeSignConsent(k, SignAuthorization(auth)).Ok? && PerformSign(SignAuthorization(auth), state).Ok?
    ensures var signed := PerformSign(SignAuthorization(auth), state).value[0].authorization.delegate;
      Some(DecodeSignConsent(k, SignAuthorization(auth)).value.implementation) == k.checksum(signed)
      <==> (auth.address.None? || auth.contractAddress.None?
            || k.checksum(auth.address.value) == k.checksum(auth.contractAddress.value))
  {
  }

  predicate IsComposite(request: SignRequest) {
    request.SignSend? || request.SignSponsored? || request.SignUserOp?
  }

  lemma CompositeSigns(request: SignRequest, state: WalletState)
    requires IsComposite(request) && request.authorization.Some? && PerformSign(request, state).Ok?
    ensures var auth := request.authorization.value;
      var signed := PerformSign(request, state).value[0];
      && signed.AuthorizationSignature?
      && Some(signed.authorization.delegate) == if auth.contractAddress.Some? then auth.contractAddress else auth.address
  {
  }

  lemma UpgradeInjective(a: string, b: string, place: string)
    requires a != "" && DelegationLines(Some(a), place) == DelegationLines(Some(b), place)
    ensures a == b
  {
    TextInjective("Authorize account upgrade to ", a, b, place);
  }

  lemma TextInjective(before: string, a: string, b: string, after: string)
    ensures before + a + after == before + b + after ==> a == b
  {
    var s, t := before + a + after, before + b + after;
    assert a == s[|before|..|before| + |a|] && b == t[|before|..|before| + |b|];
  }

  /** The screen carries the upgrade line of exactly this delegate. */
  predicate ShowsUpgradeTo(c: SignConsent, delegate: string) {
    (c.SendConsent? || c.SponsoredConsent? || c.UserOpConsent?)
    && Prefix(c) != [] && Prefix(c) == Prefix(c.(delegation := Some(delegate)))
  }

  lemma UpgradeShownIff(c: SignConsent, delegate: string)
    requires c.SendConsent? || c.SponsoredConsent? || c.UserOpConsent?
    ensures ShowsUpgradeTo(c, delegate) <==> delegate != "" && c.delegation == Some(delegate)
  {
    if ShowsUpgradeTo(c, delegate) {
      UpgradeInjective(c.delegation.value, delegate, if c.SponsoredConsent? then "" else " on " + ChainLabel(c.view.chainId));
    }
  }

  /** The request does not name two different delegates: the screen reads `address`, the account signs
      `contractAddress` first. */
  predicate NamesOneDelegate(a: Authorization) {
    a.address.Some? && (a.contractAddress.None? || a.contractAddress == a.address)
  }

  /** In a composite request the delegate on screen is the one signed exactly when the authorization names one delegate
      in `address`; its line is then the first, at danger, unless the name is empty. */
  lemma CompositeDelegationIff(k: Codec, request: SignRequest, state: WalletState)
    requires IsComposite(request) && request.authorization.Some?
    requires DecodeSignConsent(k, request).Ok? && PerformSign(request, state).Ok?
    ensures var shown := DecodeSignConsent(k, request).value;
      var auth := request.authorization.value;
      var signed := PerformSign(request, state).value[0].authorization.delegate;
      && (shown.delegation == Some(signed) <==> NamesOneDelegate(auth))
      && (ShowsUpgradeTo(shown, signed) <==> NamesOneDelegate(auth) && auth.address.value != "")
      && (NamesOneDelegate(auth) && auth.address.value != "" ==> NamesDelegate(FormatConsentDisplay(k, shown), signed))
  {
    CompositeShowsDelegation(k, request);
    CompositeSigns(request, state);
    var shown := DecodeSignConsent(k, request).value;
    var auth := request.authorization.value;
    UpgradeShownIff(shown, PerformSign(request, state).value[0].authorization.delegate);
    if NamesOneDelegate(auth) && auth.address.value != "" { DelegationOnScreen(k, shown); }
  }

  /** The input that fails: with two different delegates the screen shows the one and the account installs the other. */
  lemma CompositeShowsAnother(k: Codec, request: SignRequest, state: WalletState, one: string, other: string)
    requires IsComposite(request) && request.authorization.Some? && one != other
    requires request.authorization.value.address == Some(one) && request.authorization.value.contractAddress == Some(other)
    requires DecodeSignConsent(k, request).Ok? && PerformSign(request, state).Ok?
    ensures DecodeSignConsent(k, request).value.delegation == Some(one)
    ensures PerformSign(request, state).value[0].authorization.delegate == other
  {
    CompositeShowsDelegation(k, request);
    CompositeSigns(request, state);
  }

  // ---- grants ----

  lemma MiddleDangerIff(head: Line, middle: seq<Line>, tail: seq<Line>)
    requires head.severity != Danger && forall i :: 0 <= i < |tail| ==> tail[i].severity != Danger
    ensures HighestSeverity([head] + middle + tail) == Danger <==> exists i :: 0 <= i < |middle| && middle[i].severity == Danger
  {
    AppendingNeverLowers([head] + middle, tail);
    AppendingNeverLowers([head], middle);
    DangerIffSome([head]);
    DangerIffSome(middle);
    DangerIffSome(tail);
  }

  lemma CallLinesDangerIff(k: Codec, view: ConsentView, calls: seq<Call>)
    requires OneLinePerCall(k, view, calls)
    ensures var lines := CallLines(k, view.chainId, view.calls);
      (exists i :: 0 <= i < |lines| && lines[i].severity == Danger) <==> exists i :: 0 <= i < |calls| && IsGrant(k, calls[i])
  {
    var lines := CallLines(k, view.chainId, view.calls);
    forall i | 0 <= i < |calls| ensures lines[i].severity == Danger <==> IsGrant(k, calls[i]) {
      CallLineDanger(k, view.chainId, calls[i]);
    }
  }

  lemma FeeLinesNotDanger(k: Codec, view: ConsentView)
    ensures var lines := FeeLines(k, view); forall i :: 0 <= i < |lines| ==> lines[i].severity != Danger
  {
    if view.fee.Some? { FeeLineNeverDanger(k, view.chainId, view.fee.value); }
  }

  lemma ViewDangerIff(k: Codec, view: ConsentView, calls: seq<Call>)
    requires OneLinePerCall(k, view, calls)
    ensures HighestSeverity(EvmViewLines(k, view)) == Danger <==> exists i :: 0 <= i < |calls| && IsGrant(k, calls[i])
  {
    CallLinesDangerIff(k, view, calls);
    FeeLinesNotDanger(k, view);
    MiddleDangerIff(Line("Chain " + ChainLabel(view.chainId), Info), CallLines(k, view.chainId, view.calls), FeeLines(k, view));
  }

  lemma PrefixSeverity(c: SignConsent)
    ensures HighestSeverity(Prefix(c)) == if ShowsDelegation(c) then Danger else Info
  {
    if ShowsDelegation(c) {
      PrefixNamesDelegate(c);
      HeadDanger(Prefix(c));
    } else {
      assert Prefix(c) == [];
    }
  }

  /** Danger is never diluted, grants: a screen of calls is at danger exactly when it shows a delegation or some
      described call, at any position, is an unlimited approve or increaseAllowance or a setApprovalForAll(true). */
  lemma GrantIsDangerIff(k: Codec, request: SignRequest)
    requires DecodeSignConsent(k, request).Ok? && ViewOf(DecodeSignConsent(k, request).value).Some?
    ensures var shown := DecodeSignConsent(k, request).value;
      var described := DescribedCalls(k, request);
      described.Some? &&
      (HighestSeverity(FormatConsentDisplay(k, shown)) == Danger <==>
        ShowsDelegation(shown) || exists i :: 0 <= i < |described.value.1| && IsGrant(k, described.value.1[i]))
  {
    ViewIsDescribedCalls(k, request);
    ShownDangerIff(k, DecodeSignConsent(k, request).value, DescribedCalls(k, request).value.1);
  }

  lemma ShownSeverity(k: Codec, shown: SignConsent)
    requires ViewOf(shown).Some?
    ensures HighestSeverity(FormatConsentDisplay(k, shown))
         == Worse(if ShowsDelegation(shown) then Danger else Info, HighestSeverity(EvmViewLines(k, ViewOf(shown).value)))
  {
    FormatShape(k, shown);
    PrefixSeverity(shown);
    AppendingNeverLowers(Prefix(shown), EvmViewLines(k, ViewOf(shown).value));
  }

  lemma ShownDangerIff(k: Codec, shown: SignConsent, calls: seq<Call>)
    requires ViewOf(shown).Some? && OneLinePerCall(k, ViewOf(shown).value, calls)
    ensures HighestSeverity(FormatConsentDisplay(k, shown)) == Danger <==>
      ShowsDelegation(shown) || exists i :: 0 <= i < |calls| && IsGrant(k, calls[i])
  {
    ShownSeverity(k, shown);
    ViewDangerIff(k, ViewOf(shown).value, calls);
  }

  lemma RevertIsDanger(k: Codec, reason: Option<string>, chainId: int)
    ensures HighestSeverity(SimulationDisplayLines(k, Reverted(reason), chainId)) == Danger
  {
    HeadDanger(SimulationDisplayLines(k, Reverted(reason), chainId));
  }

  /** Appending the simulation rows keeps a screen at danger, and a revert puts any screen there. */
  lemma SimulationKeepsDanger(k: Codec, lines: seq<Line>, result: SimulationResult, chainId: int)
    ensures var all := lines + SimulationDisplayLines(k, result, chainId);
      && Rank(HighestSeverity(all)) >= Rank(HighestSeverity(lines))
      && (result.Reverted? ==> HighestSeverity(all) == Danger)
  {
    AppendingNeverLowers(lines, SimulationDisplayLines(k, result, chainId));
    if result.Reverted? { RevertIsDanger(k, result.reason, chainId); }
  }

  /** Fee calls are outside that rule: whatever the fee call grants, its line is never at danger. */
  lemma FeeLineNeverDanger(k: Codec, chainId: int, fee: ConsentLine)
    ensures FeeLine(k, chainId, fee).severity != Danger
  {
  }
}
