/** The screens of requests that are shown as calls: transactions, sends, user operations and typed-data batches
    (auth-popup/sign/consent.ts, auth-popup/sign/consent-display.ts). */
module CallScreens {
  import opened Wrappers
  import opened Text
  import opened Requests
  import opened TypedDataFields
  import opened Consent
  import opened ConsentDisplay
  import opened PerformSign
  import opened Danger

  function ChainLine(chainId: int): Line { Line("Chain " + ChainLabel(chainId), Info) }

  /** The lines have exactly one line for each of the calls, in their order, after `before` lines and the chain line and
      with exactly `after` behind them; each line tells its call. */
  ghost predicate LinesTell(k: Codec, chainId: int, lines: seq<Line>, before: nat, after: seq<Line>, calls: seq<Call>) {
    && |lines| == before + 1 + |calls| + |after|
    && lines[before] == ChainLine(chainId)
    && lines[before + 1 + |calls|..] == after
    && forall i :: 0 <= i < |calls| ==> Tells(k, chainId, calls[i], lines[before + 1 + i])
  }

  ghost predicate ConsentShows(k: Codec, shown: SignConsent, chainId: int, calls: seq<Call>, after: seq<Line>) {
    && ViewOf(shown).Some? && ViewOf(shown).value.chainId == chainId
    && LinesTell(k, chainId, FormatConsentDisplay(k, shown), |Prefix(shown)|, after, calls)
  }

  /** The screen of this request, on this chain, describes exactly these calls; beyond them it has the chain line, the
      delegation if there is one, and the `after` lines. */
  ghost predicate ShowsExactly(k: Codec, request: SignRequest, chainId: int, calls: seq<Call>, after: seq<Line>) {
    DecodeSignConsent(k, request).Ok? && ConsentShows(k, DecodeSignConsent(k, request).value, chainId, calls, after)
  }

  lemma Placed<T>(before: seq<T>, head: T, own: seq<T>, after: seq<T>)
    ensures var all := before + ([head] + own + after);
      |all| == |before| + 1 + |own| + |after| && all[|before|] == head && all[|before| + 1 + |own|..] == after
      && forall i :: 0 <= i < |own| ==> all[|before| + 1 + i] == own[i]
  {
  }

  lemma Assemble(k: Codec, chainId: int, before: seq<Line>, own: seq<Line>, after: seq<Line>, calls: seq<Call>)
    requires |own| == |calls| && forall i :: 0 <= i < |calls| ==> Tells(k, chainId, calls[i], own[i])
    ensures LinesTell(k, chainId, before + ([ChainLine(chainId)] + own + after), |before|, after, calls)
  {
    Placed(before, ChainLine(chainId), own, after);
  }

  lemma ViewDescribes(k: Codec, view: ConsentView, before: seq<Line>, calls: seq<Call>)
    requires OneLinePerCall(k, view, calls)
    ensures LinesTell(k, view.chainId, before + EvmViewLines(k, view), |before|, FeeLines(k, view), calls)
  {
    var own := CallLines(k, view.chainId, view.calls);
    forall i | 0 <= i < |calls| ensures Tells(k, view.chainId, calls[i], own[i]) {
      CallLineTells(k, view.chainId, calls[i]);
    }
    Assemble(k, view.chainId, before, own, FeeLines(k, view), calls);
  }

  lemma ScreenDescribes(k: Codec, shown: SignConsent, calls: seq<Call>)
    requires ViewOf(shown).Some? && OneLinePerCall(k, ViewOf(shown).value, calls)
    ensures ConsentShows(k, shown, ViewOf(shown).value.chainId, calls, FeeLines(k, ViewOf(shown).value))
  {
    FormatShape(k, shown);
    ViewDescribes(k, ViewOf(shown).value, Prefix(shown), calls);
  }

  lemma DecodedShows(k: Codec, request: SignRequest, shown: SignConsent, chainId: int, calls: seq<Call>, after: seq<Line>)
    requires DecodeSignConsent(k, request) == Ok(shown) && ConsentShows(k, shown, chainId, calls, after)
    ensures ShowsExactly(k, request, chainId, calls, after)
  {
  }

  lemma SendDecodes(k: Codec, tx: Tx, authorization: Option<Authorization>, view: ConsentView)
    requires DecodeTxConsent(k, tx) == Ok(view)
    ensures DecodeSignConsent(k, SignSend(tx, authorization)) == Ok(SendConsent(view, Delegation(authorization)))
  {
  }

  lemma SendShown(k: Codec, tx: Tx, authorization: Option<Authorization>, view: ConsentView, calls: seq<Call>)
    requires DecodeTxConsent(k, tx) == Ok(view) && OneLinePerCall(k, view, calls)
    ensures ShowsExactly(k, SignSend(tx, authorization), view.chainId, calls, FeeLines(k, view))
  {
    SendDecodes(k, tx, authorization, view);
    var shown := SendConsent(view, Delegation(authorization));
    ScreenDescribes(k, shown, calls);
    DecodedShows(k, SignSend(tx, authorization), shown, view.chainId, calls, FeeLines(k, view));
  }

  lemma UserOpDecodes(k: Codec, op: UserOp, chainId: int, version: string, authorization: Option<Authorization>, lines: seq<ConsentLine>)
    requires DecodeCalls(k, chainId, UserOpCalls(k, op)) == Ok(lines)
    ensures DecodeSignConsent(k, SignUserOp(op, chainId, version, authorization))
         == Ok(UserOpConsent(ConsentView(chainId, lines, None, None), Delegation(authorization)))
  {
  }

  lemma UserOpShown(k: Codec, op: UserOp, chainId: int, version: string, authorization: Option<Authorization>,
                    lines: seq<ConsentLine>, calls: seq<Call>)
    requires DecodeCalls(k, chainId, UserOpCalls(k, op)) == Ok(lines) && |lines| == |calls|
    requires forall i :: 0 <= i < |calls| ==> DecodeCall(k, chainId, calls[i]) == Ok(lines[i])
    ensures ShowsExactly(k, SignUserOp(op, chainId, version, authorization), chainId, calls, [])
  {
    UserOpDecodes(k, op, chainId, version, authorization, lines);
    var shown := UserOpConsent(ConsentView(chainId, lines, None, None), Delegation(authorization));
    ScreenDescribes(k, shown, calls);
    DecodedShows(k, SignUserOp(op, chainId, version, authorization), shown, chainId, calls, []);
  }

  // ---- transactions, whatever they carry ----

  predicate IsTxRequest(request: SignRequest, tx: Tx) {
    request == SignTransaction(tx) || (request.SignSend? && request.tx == tx)
  }

  function ToOf(tx: Tx): string { if tx.to.Some? then tx.to.value else ZERO_ADDRESS }

  function DataOf(tx: Tx): string { if tx.data.Some? then tx.data.value else "0x" }

  /** The data is one of the wallet's own batches, of these calls. */
  predicate HoldsBatch(k: Codec, data: string, calls: seq<Call>) {
    k.wallet(data).Some? && k.wallet(data).value.Execute? && k.batch(k.wallet(data).value.executionData) == Some(calls)
  }

  ghost predicate HoldsNoBatch(k: Codec, data: string) { forall calls: seq<Call> :: !HoldsBatch(k, data, calls) }

  /** The most the signature can cost, when the transaction says both what it needs. */
  function CeilingLines(k: Codec, tx: Tx): seq<Line> {
    if tx.gas.Some? && tx.maxFeePerGas.Some?
    then [MaxFeeLine(k, if tx.chainId.Some? then tx.chainId.value else 0, tx.gas.value * tx.maxFeePerGas.value)] else []
  }

  lemma TxShown(k: Codec, request: SignRequest, tx: Tx, view: ConsentView, calls: seq<Call>)
    requires IsTxRequest(request, tx) && DecodeTxConsent(k, tx) == Ok(view) && OneLinePerCall(k, view, calls)
    ensures ShowsExactly(k, request, view.chainId, calls, FeeLines(k, view))
  {
    if request.SignSend? {
      SendShown(k, tx, request.authorization, view, calls);
    } else {
      PlainDecodes(k, tx, view);
      ScreenDescribes(k, TransactionConsent(view), calls);
      DecodedShows(k, request, TransactionConsent(view), view.chainId, calls, FeeLines(k, view));
    }
  }

  lemma PlainDecodes(k: Codec, tx: Tx, view: ConsentView)
    requires DecodeTxConsent(k, tx) == Ok(view)
    ensures DecodeSignConsent(k, SignTransaction(tx)) == Ok(TransactionConsent(view))
  {
  }

  lemma PlainTxDecodes(k: Codec, tx: Tx) returns (view: ConsentView)
    requires k.checksum(ToOf(tx)).Some? && k.checksum(k.checksum(ToOf(tx)).value).Some? && HoldsNoBatch(k, DataOf(tx))
    ensures DecodeTxConsent(k, tx) == Ok(view)
    ensures view.chainId == (if tx.chainId.Some? then tx.chainId.value else 0) && FeeLines(k, view) == CeilingLines(k, tx)
    ensures OneLinePerCall(k, view, [Call(k.checksum(ToOf(tx)).value, if tx.value.Some? then tx.value.value else 0, DataOf(tx))])
  {
    if UnwrapWalletBatch(k, DataOf(tx)).Some? {
      assert HoldsBatch(k, DataOf(tx), UnwrapWalletBatch(k, DataOf(tx)).value.calls);
      assert false;
    }
    view := DecodeTxConsent(k, tx).value;
  }

  /** A transaction that holds no batch is shown as the one call it makes, on its own chain, with its fee ceiling. */
  lemma PlainTxIsShown(k: Codec, request: SignRequest, tx: Tx)
    requires IsTxRequest(request, tx) && HoldsNoBatch(k, DataOf(tx))
    requires k.checksum(ToOf(tx)).Some? && k.checksum(k.checksum(ToOf(tx)).value).Some?
    ensures ShowsExactly(k, request, if tx.chainId.Some? then tx.chainId.value else 0,
                         [Call(k.checksum(ToOf(tx)).value, if tx.value.Some? then tx.value.value else 0, DataOf(tx))],
                         CeilingLines(k, tx))
  {
    var view := PlainTxDecodes(k, tx);
    TxShown(k, request, tx, view, [Call(k.checksum(ToOf(tx)).value, if tx.value.Some? then tx.value.value else 0, DataOf(tx))]);
  }

  lemma BatchDecodes(k: Codec, tx: Tx, calls: seq<Call>) returns (view: ConsentView)
    requires k.checksum(ToOf(tx)).Some? && HoldsBatch(k, DataOf(tx), calls)
    requires forall i :: 0 <= i < |calls| ==> k.checksum(calls[i].to).Some?
    ensures DecodeTxConsent(k, tx) == Ok(view)
    ensures view.chainId == (if tx.chainId.Some? then tx.chainId.value else 0) && FeeLines(k, view) == CeilingLines(k, tx)
    ensures OneLinePerCall(k, view, calls)
  {
    DecodeCallsPointwise(k, ChainOf(tx), calls);
    var decoded := DecodeCalls(k, ChainOf(tx), calls).value;
    assert [] + decoded == decoded;
    view := DecodeTxConsent(k, tx).value;
  }

  /** A transaction that holds a batch is shown as the calls of the batch, in order. */
  lemma BatchTxIsShown(k: Codec, request: SignRequest, tx: Tx, calls: seq<Call>)
    requires IsTxRequest(request, tx) && HoldsBatch(k, DataOf(tx), calls) && k.checksum(ToOf(tx)).Some?
    requires forall i :: 0 <= i < |calls| ==> k.checksum(calls[i].to).Some?
    ensures ShowsExactly(k, request, if tx.chainId.Some? then tx.chainId.value else 0, calls, CeilingLines(k, tx))
  {
    var view := BatchDecodes(k, tx, calls);
    TxShown(k, request, tx, view, calls);
  }

  // ---- user operations ----

  lemma OpCallsShown(k: Codec, op: UserOp, chainId: int, version: string, authorization: Option<Authorization>, calls: seq<Call>)
    requires UserOpCalls(k, op) == calls && forall i :: 0 <= i < |calls| ==> k.checksum(calls[i].to).Some?
    ensures ShowsExactly(k, SignUserOp(op, chainId, version, authorization), chainId, calls, [])
  {
    DecodeCallsPointwise(k, chainId, calls);
    UserOpShown(k, op, chainId, version, authorization, DecodeCalls(k, chainId, calls).value, calls);
  }

  lemma OpUnwraps(k: Codec, op: UserOp, calls: seq<Call>)
    ensures HoldsBatch(k, op.callData, calls) ==> UserOpCalls(k, op) == calls
    ensures HoldsNoBatch(k, op.callData) ==> UserOpCalls(k, op) == [Call(op.sender, 0, op.callData)]
  {
    if UnwrapWalletBatch(k, op.callData).Some? {
      assert HoldsBatch(k, op.callData, UnwrapWalletBatch(k, op.callData).value.calls);
    }
  }

  /** A user operation is shown as the calls of the batch it holds, and otherwise as one call of its sender to itself. */
  lemma UserOpIsShown(k: Codec, op: UserOp, chainId: int, version: string, authorization: Option<Authorization>, calls: seq<Call>)
    requires HoldsBatch(k, op.callData, calls) || (HoldsNoBatch(k, op.callData) && calls == [Call(op.sender, 0, op.callData)])
    requires forall i :: 0 <= i < |calls| ==> k.checksum(calls[i].to).Some?
    ensures ShowsExactly(k, SignUserOp(op, chainId, version, authorization), chainId, calls, [])
  {
    OpUnwraps(k, op, calls);
    OpCallsShown(k, op, chainId, version, authorization, calls);
  }

  // ---- typed-data batches ----

  /** The entry is this call: its three fields, the value as BigInt reads it. */
  predicate EntryIs(entry: Value, call: Call) {
    && entry.Object?
    && Get(entry.entries, "to") == Some(Scalar(call.to))
    && Get(entry.entries, "data") == Some(Scalar(call.data))
    && Get(entry.entries, "value").Some? && Get(entry.entries, "value").value.Scalar?
    && ParseBigInt(Get(entry.entries, "value").value.text) == Some(call.value)
  }

  predicate EntriesAre(entries: seq<Value>, calls: seq<Call>) {
    |entries| == |calls| && forall i :: 0 <= i < |calls| ==> EntryIs(entries[i], calls[i])
  }

  lemma {:induction false} EntriesRead(entries: seq<Value>, calls: seq<Call>)
    requires EntriesAre(entries, calls)
    ensures CallsOf(entries) == Some(calls)
  {
    if entries != [] {
      EntriesRead(entries[1..], calls[1..]);
      EntryReads(entries[0], calls[0]);
      assert [calls[0]] + calls[1..] == calls;
    }
  }

  lemma EntryReads(entry: Value, call: Call)
    requires EntryIs(entry, call)
    ensures CallOf(entry) == Some(call)
  {
  }

  predicate ListIs(message: Value, field: string, entries: seq<Value>) {
    message.Object? && Get(message.entries, field) == Some(List(entries))
  }

  /** The fee line of a batch: that of its last fee call. */
  function LastFeeLines(k: Codec, chainId: int, fees: seq<Call>): seq<Line>
    requires fees != [] ==> DecodeCall(k, chainId, fees[|fees| - 1]).Ok?
  {
    if fees == [] then [] else [FeeLine(k, chainId, DecodeCall(k, chainId, fees[|fees| - 1]).value)]
  }

  lemma BatchMessageDecodes(k: Codec, chainId: int, message: Value, userEntries: seq<Value>, feeEntries: seq<Value>,
                            calls: seq<Call>, fees: seq<Call>) returns (view: ConsentView)
    requires ListIs(message, "userCalls", userEntries) && ListIs(message, "feeCalls", feeEntries)
    requires EntriesAre(userEntries, calls)
    requires |feeEntries| == |fees| && (fees != [] ==> EntryIs(feeEntries[|fees| - 1], fees[|fees| - 1]))
    requires forall i :: 0 <= i < |calls| ==> k.checksum(calls[i].to).Some?
    requires fees != [] ==> k.checksum(fees[|fees| - 1].to).Some?
    ensures DecodeConsent(k, chainId, message) == Ok(view) && view.chainId == chainId && OneLinePerCall(k, view, calls)
    ensures FeeLines(k, view) == LastFeeLines(k, chainId, fees)
  {
    UserCallsRead(message, userEntries, calls);
    DecodeCallsPointwise(k, chainId, calls);
    view := DecodeConsent(k, chainId, message).value;
    if fees != [] { EntryReads(feeEntries[|fees| - 1], fees[|fees| - 1]); }
  }

  lemma UserCallsRead(message: Value, entries: seq<Value>, calls: seq<Call>)
    requires ListIs(message, "userCalls", entries)
    requires EntriesAre(entries, calls)
    ensures BatchCalls(message, "userCalls") == Some(calls)
  {
    EntriesRead(entries, calls);
  }

  lemma BatchConsentShown(k: Codec, request: SignRequest, td: TypedData, view: ConsentView, calls: seq<Call>)
    requires request == SignTypedData(td) || (request.SignSponsored? && request.typedData == td)
    requires td.domain.chainId.Some? && IsAvokBatch(MessageOf(td))
    requires DecodeConsent(k, td.domain.chainId.value, MessageOf(td)) == Ok(view) && OneLinePerCall(k, view, calls)
    ensures ShowsExactly(k, request, view.chainId, calls, FeeLines(k, view))
  {
    var shown := BatchConsentOf(k, request, td, view);
    ScreenDescribes(k, shown, calls);
    DecodedShows(k, request, shown, view.chainId, calls, FeeLines(k, view));
  }

  lemma BatchConsentOf(k: Codec, request: SignRequest, td: TypedData, view: ConsentView) returns (shown: SignConsent)
    requires request == SignTypedData(td) || (request.SignSponsored? && request.typedData == td)
    requires td.domain.chainId.Some? && IsAvokBatch(MessageOf(td))
    requires DecodeConsent(k, td.domain.chainId.value, MessageOf(td)) == Ok(view)
    ensures DecodeSignConsent(k, request) == Ok(shown) && ViewOf(shown) == Some(view)
  {
    shown := DecodeSignConsent(k, request).value;
  }

  /** A typed-data batch is shown as its user calls, in order and on the chain of its domain, with its last fee call. */
  lemma TypedBatchIsShown(k: Codec, request: SignRequest, td: TypedData, userEntries: seq<Value>, feeEntries: seq<Value>,
                          calls: seq<Call>, fees: seq<Call>)
    requires request == SignTypedData(td) || (request.SignSponsored? && request.typedData == td)
    requires td.domain.chainId.Some? && IsAvokBatch(MessageOf(td))
    requires ListIs(MessageOf(td), "userCalls", userEntries) && ListIs(MessageOf(td), "feeCalls", feeEntries)
    requires EntriesAre(userEntries, calls)
    requires |feeEntries| == |fees| && (fees != [] ==> EntryIs(feeEntries[|fees| - 1], fees[|fees| - 1]))
    requires forall i :: 0 <= i < |calls| ==> k.checksum(calls[i].to).Some?
    requires fees != [] ==> k.checksum(fees[|fees| - 1].to).Some?
    ensures ShowsExactly(k, request, td.domain.chainId.value, calls, LastFeeLines(k, td.domain.chainId.value, fees))
  {
    var view := BatchMessageDecodes(k, td.domain.chainId.value, MessageOf(td), userEntries, feeEntries, calls, fees);
    BatchConsentShown(k, request, td, view, calls);
  }

  // ---- bare authorizations ----

  /** A bare authorization is one line, at danger: its delegate in checksummed text, and its chain. */
  lemma AuthorizationIsShown(k: Codec, auth: Authorization)
    ensures var named := if auth.address.Some? then auth.address else auth.contractAddress;
      && (DecodeSignConsent(k, SignAuthorization(auth)).Ok? <==> named.Some? && k.checksum(named.value).Some?)
      && (named.Some? && k.checksum(named.value).Some? ==>
            FormatConsentDisplay(k, DecodeSignConsent(k, SignAuthorization(auth)).value)
              == [Line("Authorize account upgrade to " + k.checksum(named.value).value + " on " + ChainLabel(auth.chainId), Danger)])
  {
  }

  /** The line of a delegation names the chain it is for, but on a sponsored batch. */
  lemma DelegationNamesChain(c: SignConsent)
    requires (c.SendConsent? || c.UserOpConsent?) && ShowsDelegation(c)
    ensures Prefix(c) == [Line("Authorize account upgrade to " + c.delegation.value + " on " + ChainLabel(c.view.chainId), Danger)]
  {
    var place := " on " + ChainLabel(c.view.chainId);
    Associate("Authorize account upgrade to " + c.delegation.value, " on ", ChainLabel(c.view.chainId));
    assert Prefix(c) == DelegationLines(c.delegation, place);
  }
}
