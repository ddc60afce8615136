/** Decoding a signing request into what the consent screen describes (auth-popup/sign/consent.ts). */
module Consent {
  import opened Wrappers
  import opened Text
  import opened Requests
  import opened TypedDataFields

  datatype CallKind =
    | Erc20Transfer
    | Erc20Approve
    | Erc20IncreaseAllowance
    | Erc20TransferFrom
    | Erc721ApproveAll
    | Native
    | Raw

  datatype TokenInfo = TokenInfo(
    symbol: Option<string>,
    amount: Option<string>,
    baseUnits: string,
    counterparty: string,
    source: Option<string>,
    approved: Option<bool>)

  datatype ConsentLine = ConsentLine(to: string, valueWei: string, kind: CallKind, token: Option<TokenInfo>, raw: string)

  datatype ConsentView = ConsentView(chainId: int, calls: seq<ConsentLine>, fee: Option<ConsentLine>, maxFeeWei: Option<int>)

  datatype GenericView = GenericView(domain: Domain, primaryType: string, fields: seq<Row>)

  datatype SignConsent =
    | MessageConsent(message: string)
    | BatchConsent(view: ConsentView)
    | GenericConsent(generic: GenericView)
    | SiweConsent(fields: map<string, string>)
    | TransactionConsent(view: ConsentView)
    | SendConsent(view: ConsentView, delegation: Option<string>)
    | SponsoredConsent(view: ConsentView, delegation: Option<string>)
    | UserOpConsent(view: ConsentView, delegation: Option<string>)
    | AuthorizationConsent(chainId: int, implementation: string)

  /** A token amount with its human-readable form, given only for registered tokens. */
  function Amounted(k: Codec, chainId: int, token: string, amount: nat, counterparty: string, source: Option<string>): TokenInfo {
    match k.profile(chainId, token)
    case None => TokenInfo(None, None, NatToString(amount), counterparty, source, None)
    case Some(p) => TokenInfo(Some(p.symbol), Some(k.units(amount, p.decimals)), NatToString(amount), counterparty, source, None)
  }

  /** The ERC-20 attempt. None where decoding throws, matches another function, or names an invalid address. */
  function Erc20Token(k: Codec, chainId: int, to: string, data: string): Option<(CallKind, TokenInfo)> {
    match k.erc20(data)
    case Some(Transfer(dest, amount)) =>
      (match k.checksum(dest) case None => None case Some(a) => Some((Erc20Transfer, Amounted(k, chainId, to, amount, a, None))))
    case Some(Approve(spender, amount)) =>
      (match k.checksum(spender) case None => None case Some(a) => Some((Erc20Approve, Amounted(k, chainId, to, amount, a, None))))
    case Some(TransferFrom(source, dest, amount)) =>
      (match (k.checksum(dest), k.checksum(source))
       case (Some(a), Some(f)) => Some((Erc20TransferFrom, Amounted(k, chainId, to, amount, a, Some(f))))
       case _ => None)
    case _ => None
  }

  /** The attempt with the two further approval selectors. */
  function ApprovalToken(k: Codec, chainId: int, to: string, data: string): Option<(CallKind, TokenInfo)> {
    match k.approval(data)
    case Some(SetApprovalForAll(operator, approved)) =>
      (match k.checksum(operator)
       case None => None
       case Some(a) => Some((Erc721ApproveAll, TokenInfo(None, None, "0", a, None, Some(approved)))))
    case Some(IncreaseAllowance(spender, added)) =>
      (match k.checksum(spender)
       case None => None
       case Some(a) => Some((Erc20IncreaseAllowance, Amounted(k, chainId, to, added, a, None))))
    case None => None
  }

  function TokenCall(k: Codec, chainId: int, to: string, data: string): Option<(CallKind, TokenInfo)> {
    var erc20 := Erc20Token(k, chainId, to, data);
    if erc20.Some? then erc20 else ApprovalToken(k, chainId, to, data)
  }

  function DecodeCall(k: Codec, chainId: int, call: Call): Result<ConsentLine> {
    match k.checksum(call.to)
    case None => Err("invalid address")
    case Some(to) =>
      match TokenCall(k, chainId, to, call.data)
      case Some((kind, token)) => Ok(ConsentLine(to, IntToString(call.value), kind, Some(token), call.data))
      case None =>
        Ok(ConsentLine(to, IntToString(call.value), if call.value > 0 && call.data == "0x" then Native else Raw, None, call.data))
  }

  function DecodeCalls(k: Codec, chainId: int, calls: seq<Call>): Result<seq<ConsentLine>> {
    if calls == [] then Ok([])
    else
      match (DecodeCall(k, chainId, calls[0]), DecodeCalls(k, chainId, calls[1..]))
      case (Ok(line), Ok(rest)) => Ok([line] + rest)
      case _ => Err("invalid address")
  }

  datatype Batch = Batch(calls: seq<Call>, feeCalls: seq<Call>)

  /** None when the data is not one of the wallet's own batches. */
  function UnwrapWalletBatch(k: Codec, data: string): Option<Batch> {
    match k.wallet(data)
    case Some(Execute(_, executionData)) =>
      (match k.batch(executionData) case None => None case Some(calls) => Some(Batch(calls, [])))
    case _ => None
  }

  function MaxFee(tx: Tx): Option<int> {
    if tx.gas.Some? && tx.maxFeePerGas.Some? then Some(tx.gas.value * tx.maxFeePerGas.value) else None
  }

  /** The outer call of a transaction; its address must be valid even when a batch is unwrapped. */
  function OuterCall(k: Codec, tx: Tx): Result<Call> {
    match k.checksum(if tx.to.Some? then tx.to.value else ZERO_ADDRESS)
    case None => Err("invalid address")
    case Some(to) =>
      Ok(Call(to, if tx.value.Some? then tx.value.value else 0, if tx.data.Some? then tx.data.value else "0x"))
  }

  function ChainOf(tx: Tx): int {
    if tx.chainId.Some? then tx.chainId.value else 0
  }

  /** One fee call gives the fee line; more than one are shown as calls. */
  function BatchView(k: Codec, chainId: int, batch: Batch, maxFee: Option<int>): Result<ConsentView> {
    match (DecodeCalls(k, chainId, batch.calls), DecodeCalls(k, chainId, batch.feeCalls))
    case (Ok(calls), Ok(fees)) =>
      if |fees| == 1 then Ok(ConsentView(chainId, calls, Some(fees[0]), maxFee))
      else Ok(ConsentView(chainId, fees + calls, None, maxFee))
    case _ => Err("invalid address")
  }

  function DecodeTxConsent(k: Codec, tx: Tx): Result<ConsentView> {
    match OuterCall(k, tx)
    case Err(e) => Err(e)
    case Ok(call) =>
      match UnwrapWalletBatch(k, call.data)
      case Some(batch) => BatchView(k, ChainOf(tx), batch, MaxFee(tx))
      case None =>
        match DecodeCall(k, ChainOf(tx), call)
        case Err(e) => Err(e)
        case Ok(line) => Ok(ConsentView(ChainOf(tx), [line], None, MaxFee(tx)))
  }

  /** A call inside a typed-data batch: address text, integer value, hex data. */
  function CallOf(v: Value): Option<Call> {
    if !v.Object? then None else
    match (Get(v.entries, "to"), Get(v.entries, "value"), Get(v.entries, "data"))
    case (Some(Scalar(to)), Some(Scalar(value)), Some(Scalar(data))) =>
      (match ParseBigInt(value) case None => None case Some(n) => Some(Call(to, n, data)))
    case _ => None
  }

  function CallsOf(items: seq<Value>): Option<seq<Call>> {
    if items == [] then Some([])
    else
      match (CallOf(items[0]), CallsOf(items[1..]))
      case (Some(c), Some(rest)) => Some([c] + rest)
      case _ => None
  }

  function ListOf(message: Value, field: string): seq<Value> {
    if message.Object? && IsList(Get(message.entries, field)) then Get(message.entries, field).value.items else []
  }

  function BatchCalls(message: Value, field: string): Option<seq<Call>> {
    CallsOf(ListOf(message, field))
  }

  /** The bespoke batch view: every user call, and as the fee the last fee call, the only one that is read. */
  function DecodeConsent(k: Codec, chainId: int, message: Value): Result<ConsentView> {
    match BatchCalls(message, "userCalls")
    case None => Err("malformed call")
    case Some(userCalls) =>
      match DecodeCalls(k, chainId, userCalls)
      case Err(e) => Err(e)
      case Ok(calls) =>
        var feeCalls := ListOf(message, "feeCalls");
        if feeCalls == [] then Ok(ConsentView(chainId, calls, None, None))
        else
          match CallOf(feeCalls[|feeCalls| - 1])
          case None => Err("malformed call")
          case Some(feeCall) =>
            match DecodeCall(k, chainId, feeCall)
            case Err(e) => Err(e)
            case Ok(fee) => Ok(ConsentView(chainId, calls, Some(fee), None))
  }

  function MessageOf(td: TypedData): Value {
    if td.message.Some? then td.message.value else Object([])
  }

  function DecodeTypedData(k: Codec, td: TypedData): Result<SignConsent> {
    if td.domain.chainId.None? then Err("typedData.domain.chainId is required for signTypedData")
    else if !IsAvokBatch(MessageOf(td)) then
      Ok(GenericConsent(GenericView(td.domain, if td.primaryType.Some? then td.primaryType.value else "(unnamed)",
        FlattenFields(MessageOf(td), ""))))
    else
      match DecodeConsent(k, td.domain.chainId.value, MessageOf(td))
      case Err(e) => Err(e)
      case Ok(view) => Ok(BatchConsent(view))
  }

  /** Composite requests read only `authorization.address`. */
  function Delegation(auth: Option<Authorization>): Option<string> {
    if auth.Some? then auth.value.address else None
  }

  /** Lines joined by newlines. */
  function JoinLines(lines: seq<string>): string {
    if lines == [] then "" else if |lines| == 1 then lines[0] else lines[0] + "\n" + JoinLines(lines[1..])
  }

  function UserOpCalls(k: Codec, op: UserOp): seq<Call> {
    match UnwrapWalletBatch(k, op.callData)
    case Some(batch) => batch.calls
    case None => [Call(op.sender, 0, op.callData)]
  }

  /** Err stands for a throw: the request cannot be described. */
  function DecodeSignConsent(k: Codec, request: SignRequest): Result<SignConsent> {
    match request
    case SignMessage(message) => Ok(MessageConsent(message))
    case SignTypedData(td) => DecodeTypedData(k, td)
    case SignSiwe(fields, resources) =>
      Ok(SiweConsent(if resources.Some? then fields["resources" := JoinLines(resources.value)] else fields))
    case SignAuthorization(auth) =>
      var named := if auth.address.Some? then auth.address else auth.contractAddress;
      if named.None? then Err("authorization must carry address or contractAddress")
      else
        (match k.checksum(named.value)
         case None => Err("invalid address")
         case Some(a) => Ok(AuthorizationConsent(auth.chainId, a)))
    case SignTransaction(tx) =>
      (match DecodeTxConsent(k, tx) case Err(e) => Err(e) case Ok(view) => Ok(TransactionConsent(view)))
    case SignSend(tx, auth) =>
      (match DecodeTxConsent(k, tx) case Err(e) => Err(e) case Ok(view) => Ok(SendConsent(view, Delegation(auth))))
    case SignSponsored(td, auth) =>
      (match DecodeTypedData(k, td)
       case Ok(BatchConsent(view)) => Ok(SponsoredConsent(view, Delegation(auth)))
       case Ok(_) => Err("signSponsored consent: expected a typed-data view")
       case Err(e) => Err(e))
    case SignUserOp(op, chainId, _, auth) =>
      match DecodeCalls(k, chainId, UserOpCalls(k, op))
      case Err(e) => Err(e)
      case Ok(calls) => Ok(UserOpConsent(ConsentView(chainId, calls, None, None), Delegation(auth)))
  }

  /** The calls of a request that the screen describes one by one, with the chain they run on. */
  function DescribedCalls(k: Codec, request: SignRequest): Option<(int, seq<Call>)> {
    match request
    case SignTransaction(tx) => TxCalls(k, tx)
    case SignSend(tx, _) => TxCalls(k, tx)
    case SignUserOp(op, chainId, _, _) => Some((chainId, UserOpCalls(k, op)))
    case SignTypedData(td) => TypedCalls(td)
    case SignSponsored(td, _) => TypedCalls(td)
    case _ => None
  }

  function TxCalls(k: Codec, tx: Tx): Option<(int, seq<Call>)> {
    match OuterCall(k, tx)
    case Err(_) => None
    case Ok(call) =>
      match UnwrapWalletBatch(k, call.data)
      case Some(batch) => Some((ChainOf(tx), batch.calls))
      case None => Some((ChainOf(tx), [call]))
  }

  function TypedCalls(td: TypedData): Option<(int, seq<Call>)> {
    if td.domain.chainId.None? || !IsAvokBatch(MessageOf(td)) then None else
    match BatchCalls(MessageOf(td), "userCalls")
    case None => None
    case Some(calls) => Some((td.domain.chainId.value, calls))
  }

  function ViewOf(c: SignConsent): Option<ConsentView> {
    match c
    case BatchConsent(view) => Some(view)
    case TransactionConsent(view) => Some(view)
    case SendConsent(view, _) => Some(view)
    case SponsoredConsent(view, _) => Some(view)
    case UserOpConsent(view, _) => Some(view)
    case _ => None
  }

  // ---- lemmas ----

  lemma {:induction false} DecodeCallsPointwise(k: Codec, chainId: int, calls: seq<Call>)
    ensures var r := DecodeCalls(k, chainId, calls);
      && (r.Ok? <==> forall i :: 0 <= i < |calls| ==> k.checksum(calls[i].to).Some?)
      && (r.Ok? ==> |r.value| == |calls| && forall i :: 0 <= i < |calls| ==> DecodeCall(k, chainId, calls[i]) == Ok(r.value[i]))
  {
    if calls != [] {
      DecodeCallsPointwise(k, chainId, calls[1..]);
      assert forall i :: 0 <= i < |calls| ==> calls[i] == if i == 0 then calls[0] else calls[1..][i - 1];
    }
  }

  /** The view has one line per call, in order, none added or lost. */
  predicate OneLinePerCall(k: Codec, view: ConsentView, calls: seq<Call>) {
    |view.calls| == |calls| && forall i :: 0 <= i < |calls| ==> DecodeCall(k, view.chainId, calls[i]) == Ok(view.calls[i])
  }

  lemma TxViewIsCalls(k: Codec, tx: Tx)
    requires DecodeTxConsent(k, tx).Ok?
    ensures TxCalls(k, tx).Some?
    ensures DecodeTxConsent(k, tx).value.chainId == TxCalls(k, tx).value.0
    ensures OneLinePerCall(k, DecodeTxConsent(k, tx).value, TxCalls(k, tx).value.1)
  {
    DecodeCallsPointwise(k, ChainOf(tx), TxCalls(k, tx).value.1);
  }

  lemma TypedViewIsCalls(k: Codec, td: TypedData)
    requires DecodeTypedData(k, td).Ok? && DecodeTypedData(k, td).value.BatchConsent?
    ensures TypedCalls(td).Some?
    ensures DecodeTypedData(k, td).value.view.chainId == TypedCalls(td).value.0
    ensures OneLinePerCall(k, DecodeTypedData(k, td).value.view, TypedCalls(td).value.1)
  {
    DecodeCallsPointwise(k, td.domain.chainId.value, TypedCalls(td).value.1);
  }

  /** Of the fee calls of a batch only the last is shown: two batches that agree on it and on the user calls are shown
      alike, whatever their other fee calls are. */
  lemma OnlyLastFeeCallShown(k: Codec, chainId: int, m: Value, n: Value, before: seq<Value>, before': seq<Value>, last: Value)
    requires ListOf(m, "userCalls") == ListOf(n, "userCalls")
    requires ListOf(m, "feeCalls") == before + [last] && ListOf(n, "feeCalls") == before' + [last]
    ensures DecodeConsent(k, chainId, m) == DecodeConsent(k, chainId, n)
    ensures DecodeConsent(k, chainId, m).Ok? ==>
      CallOf(last).Some? && DecodeConsent(k, chainId, m).value.fee.Some?
      && DecodeCall(k, chainId, CallOf(last).value) == Ok(DecodeConsent(k, chainId, m).value.fee.value)
  {
    assert ListOf(m, "feeCalls")[|before|] == last && ListOf(n, "feeCalls")[|before'|] == last;
  }

  lemma {:induction false} CallsOfPointwise(items: seq<Value>)
    requires CallsOf(items).Some?
    ensures |CallsOf(items).value| == |items|
    ensures forall i :: 0 <= i < |items| ==> CallOf(items[i]) == Some(CallsOf(items).value[i])
  {
    if items != [] {
      CallsOfPointwise(items[1..]);
      assert forall i :: 0 <= i < |items| ==> items[i] == if i == 0 then items[0] else items[1..][i - 1];
    }
  }

  /** The decoded line keeps its call: checksummed target, value and data. */
  predicate Keeps(k: Codec, line: ConsentLine, call: Call) {
    k.checksum(call.to) == Some(line.to) && line.valueWei == IntToString(call.value) && line.raw == call.data
  }

  lemma LinesKeepCalls(k: Codec, view: ConsentView, calls: seq<Call>)
    requires OneLinePerCall(k, view, calls)
    ensures forall i :: 0 <= i < |calls| ==> Keeps(k, view.calls[i], calls[i])
  {
    forall i | 0 <= i < |calls| ensures Keeps(k, view.calls[i], calls[i]) {
      assert DecodeCall(k, view.chainId, calls[i]) == Ok(view.calls[i]);
    }
  }

  /** Whatever request is decoded into a view of calls: one line per described call, in order, none added or lost. */
  lemma ViewIsDescribedCalls(k: Codec, request: SignRequest)
    requires DecodeSignConsent(k, request).Ok? && ViewOf(DecodeSignConsent(k, request).value).Some?
    ensures var view := ViewOf(DecodeSignConsent(k, request).value).value;
      var described := DescribedCalls(k, request);
      && described.Some? && view.chainId == described.value.0 && OneLinePerCall(k, view, described.value.1)
      && forall i :: 0 <= i < |view.calls| ==> Keeps(k, view.calls[i], described.value.1[i])
  {
    CallsAreLines(k, request);
    LinesKeepCalls(k, ViewOf(DecodeSignConsent(k, request).value).value, DescribedCalls(k, request).value.1);
  }

  lemma CallsAreLines(k: Codec, request: SignRequest)
    requires DecodeSignConsent(k, request).Ok? && ViewOf(DecodeSignConsent(k, request).value).Some?
    ensures var view := ViewOf(DecodeSignConsent(k, request).value).value;
      var described := DescribedCalls(k, request);
      described.Some? && view.chainId == described.value.0 && OneLinePerCall(k, view, described.value.1)
  {
    match request
    case SignTransaction(tx) => TxViewIsCalls(k, tx);
    case SignSend(tx, _) => TxViewIsCalls(k, tx);
    case SignTypedData(td) => TypedViewIsCalls(k, td);
    case SignSponsored(td, _) => TypedViewIsCalls(k, td);
    case SignUserOp(op, chainId, _, _) => DecodeCallsPointwise(k, chainId, UserOpCalls(k, op));
    case _ =>
  }

  /** The call decoder step by step: a record filled in by assignment along the branches. */
  method DescribeCall(k: Codec, chainId: int, call: Call) returns (r: Result<ConsentLine>)
    ensures r == DecodeCall(k, chainId, call)
  {
    var to := k.checksum(call.to);
    if to.None? { return Err("invalid address"); }
    var line := ConsentLine(to.value, IntToString(call.value), Raw, None, call.data);
    var erc20 := k.erc20(call.data);
    if erc20.Some? && (erc20.value.Transfer? || erc20.value.Approve?) {
      var party := k.checksum(if erc20.value.Transfer? then erc20.value.dest else erc20.value.spender);
      if party.Some? {
        var token := TokenInfo(None, None, NatToString(erc20.value.amount), party.value, None, None);
        var profile := k.profile(chainId, to.value);
        if profile.Some? {
          token := token.(symbol := Some(profile.value.symbol), amount := Some(k.units(erc20.value.amount, profile.value.decimals)));
        }
        return Ok(line.(kind := if erc20.value.Transfer? then Erc20Transfer else Erc20Approve, token := Some(token)));
      }
    } else if erc20.Some? && erc20.value.TransferFrom? {
      var dest, source := k.checksum(erc20.value.dest), k.checksum(erc20.value.source);
      if dest.Some? && source.Some? {
        var token := TokenInfo(None, None, NatToString(erc20.value.amount), dest.value, Some(source.value), None);
        var profile := k.profile(chainId, to.value);
        if profile.Some? {
          token := token.(symbol := Some(profile.value.symbol), amount := Some(k.units(erc20.value.amount, profile.value.decimals)));
        }
        return Ok(line.(kind := Erc20TransferFrom, token := Some(token)));
      }
    }
    var granted := ApprovalToken(k, chainId, to.value, call.data);
    if granted.Some? {
      return Ok(line.(kind := granted.value.0, token := Some(granted.value.1)));
    }
    if call.value > 0 && call.data == "0x" {
      line := line.(kind := Native);
    }
    r := Ok(line);
  }
}
