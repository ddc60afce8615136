/** The lines of the approval screen, each with how alarming it is (auth-popup/sign/consent-display.ts). */
module ConsentDisplay {
  import opened Wrappers
  import opened Text
  import opened Requests
  import opened Consent
  import opened TypedDataFields
  import opened Danger
  import Deltas

  datatype Line = Line(text: string, severity: Severity)

  function Rank(s: Severity): nat {
    match s case Info => 0 case Caution => 1 case Danger => 2
  }

  function Worse(a: Severity, b: Severity): Severity {
    if Rank(b) > Rank(a) then b else a
  }

  /** The left fold over the lines, starting from info. */
  function HighestSeverity(lines: seq<Line>): Severity {
    if lines == [] then Info else Worse(HighestSeverity(lines[..|lines| - 1]), lines[|lines| - 1].severity)
  }

  const CHAIN_NAMES: map<int, string> := map[
    1 := "Ethereum", 10 := "Optimism", 8453 := "Base", 42161 := "Arbitrum", 56 := "BNB Chain", 5042002 := "Arc"]

  function ChainLabel(id: int): string {
    if id in CHAIN_NAMES then CHAIN_NAMES[id] + " (" + IntToString(id) + ")" else "chain " + IntToString(id)
  }

  const NATIVE_SYMBOLS: map<int, string> := map[56 := "BNB", 5042002 := "USDC"]

  function NativeSymbol(id: int): string {
    if id in NATIVE_SYMBOLS then NATIVE_SYMBOLS[id] else "ETH"
  }

  function FormatEther(k: Codec, wei: string): string {
    match ParseBigInt(wei) case None => "" case Some(n) => k.units(n, 18)
  }

  /** A token is shown in human form when it has a symbol and an amount. */
  predicate Known(t: TokenInfo) {
    t.symbol.Some? && t.symbol.value != "" && t.amount.Some?
  }

  predicate HasSymbol(t: TokenInfo) {
    t.symbol.Some? && t.symbol.value != ""
  }

  function AmountParts(t: TokenInfo, token: string): seq<string> {
    if Known(t) then [t.amount.value, " ", t.symbol.value]
    else [t.baseUnits, " base units of token ", token, " (unknown token)"]
  }

  const UNLIMITED := " — UNLIMITED"

  /** The pieces of a call's line, before any warning. */
  function CallParts(k: Codec, chainId: int, line: ConsentLine): seq<string> {
    match (line.kind, line.token)
    case (Erc20Transfer, Some(t)) => ["Send "] + AmountParts(t, line.to) + [" to ", t.counterparty]
    case (Erc20Approve, Some(t)) => ["Approve ", t.counterparty, " to spend "] + AmountParts(t, line.to)
    case (Erc20IncreaseAllowance, Some(t)) => ["Increase ", t.counterparty, "'s allowance by "] + AmountParts(t, line.to)
    case (Erc20TransferFrom, Some(t)) =>
      ["Move "] + AmountParts(t, line.to)
      + [" from ", if t.source.Some? then t.source.value else "undefined", " to ", t.counterparty]
    case (Erc721ApproveAll, Some(t)) =>
      if t.approved == Some(true) then
        ["Approve ", t.counterparty, " to transfer ALL of your tokens in collection ", line.to]
      else ["Revoke ", t.counterparty, "'s approval for all tokens in collection ", line.to]
    case (Native, _) => ["Send ", FormatEther(k, line.valueWei), " ", NativeSymbol(chainId), " to ", line.to]
    case _ => ["Unrecognized call to ", line.to, " — value ", line.valueWei, " wei, data ", line.raw]
  }

  function CallSeverity(line: ConsentLine): Severity {
    match (line.kind, line.token)
    case (Erc20Transfer, Some(t)) => if Known(t) then Info else Caution
    case (Erc20Approve, Some(t)) => GrantSeverity(t)
    case (Erc20IncreaseAllowance, Some(t)) => GrantSeverity(t)
    case (Erc20TransferFrom, Some(t)) => if HasSymbol(t) then Info else Caution
    case (Erc721ApproveAll, Some(t)) => if t.approved == Some(true) then Danger else Info
    case (Native, _) => Info
    case _ => Caution
  }

  function GrantSeverity(t: TokenInfo): Severity {
    if IsUnlimitedAmount(t.baseUnits) then Danger else if Known(t) then Info else Caution
  }

  predicate Warned(line: ConsentLine) {
    (line.kind == Erc20Approve || line.kind == Erc20IncreaseAllowance)
    && line.token.Some? && IsUnlimitedAmount(line.token.value.baseUnits)
  }

  /** Exactly one line for every decoded call. */
  function EvmCallLine(k: Codec, chainId: int, line: ConsentLine): Line {
    Line(Join(CallParts(k, chainId, line) + if Warned(line) then [UNLIMITED] else []), CallSeverity(line))
  }

  function FeeParts(k: Codec, chainId: int, fee: ConsentLine): seq<string> {
    if fee.token.Some? && Known(fee.token.value) then
      ["Network fee: ", fee.token.value.amount.value, " ", fee.token.value.symbol.value, " (repaid to the paymaster)"]
    else if fee.token.Some? then
      ["Network fee: ", fee.token.value.baseUnits, " base units of token ", fee.to, " (unknown token)"]
    else if fee.kind == Native then ["Network fee: ", FormatEther(k, fee.valueWei), " ", NativeSymbol(chainId)]
    else ["Network fee: ", fee.valueWei, " wei to ", fee.to]
  }

  function FeeLine(k: Codec, chainId: int, fee: ConsentLine): Line {
    Line(Join(FeeParts(k, chainId, fee)), if fee.token.Some? && !Known(fee.token.value) then Caution else Info)
  }

  function MaxFeeParts(k: Codec, chainId: int, maxFeeWei: int): seq<string> {
    ["Network fee: paid by you in ", NativeSymbol(chainId), " — at most ", k.units(maxFeeWei, 18),
     ", and only what the transaction actually uses"]
  }

  function MaxFeeLine(k: Codec, chainId: int, maxFeeWei: int): Line {
    Line(Join(MaxFeeParts(k, chainId, maxFeeWei)), Info)
  }

  function CallLines(k: Codec, chainId: int, calls: seq<ConsentLine>): (lines: seq<Line>)
    ensures |lines| == |calls| && forall i :: 0 <= i < |calls| ==> lines[i] == EvmCallLine(k, chainId, calls[i])
  {
    seq(|calls|, i requires 0 <= i < |calls| => EvmCallLine(k, chainId, calls[i]))
  }

  function FeeLines(k: Codec, view: ConsentView): seq<Line> {
    if view.fee.Some? then [FeeLine(k, view.chainId, view.fee.value)]
    else if view.maxFeeWei.Some? then [MaxFeeLine(k, view.chainId, view.maxFeeWei.value)]
    else []
  }

  function EvmViewLines(k: Codec, view: ConsentView): seq<Line> {
    [Line("Chain " + ChainLabel(view.chainId), Info)] + CallLines(k, view.chainId, view.calls) + FeeLines(k, view)
  }

  /** Pushing the line of each call, one after another. */
  method PushLines(calls: seq<ConsentLine>, lineOf: ConsentLine -> Line) returns (lines: seq<Line>)
    ensures |lines| == |calls| && forall i :: 0 <= i < |calls| ==> lines[i] == lineOf(calls[i])
  {
    lines := [];
    for i := 0 to |calls|
      invariant |lines| == i && forall j :: 0 <= j < i ==> lines[j] == lineOf(calls[j])
    {
      lines := lines + [lineOf(calls[i])];
    }
  }

  /** The same list built by pushing line after line. */
  method BuildEvmViewLines(k: Codec, view: ConsentView) returns (lines: seq<Line>)
    ensures lines == EvmViewLines(k, view)
  {
    lines := [Line("Chain " + ChainLabel(view.chainId), Info)];
    var calls := PushLines(view.calls, line => EvmCallLine(k, view.chainId, line));
    assert calls == CallLines(k, view.chainId, view.calls);
    lines := lines + calls;
    if view.fee.Some? {
      lines := lines + [FeeLine(k, view.chainId, view.fee.value)];
    } else if view.maxFeeWei.Some? {
      lines := lines + [MaxFeeLine(k, view.chainId, view.maxFeeWei.value)];
    }
  }

  /** An empty or absent delegation shows nothing. */
  function DelegationLines(delegation: Option<string>, place: string): seq<Line> {
    if delegation.Some? && delegation.value != "" then
      [Line("Authorize account upgrade to " + delegation.value + place, Danger)]
    else []
  }

  const SIWE_ORDER: seq<(string, string)> := [
    ("Domain", "domain"), ("URI", "uri"), ("Statement", "statement"), ("Chain", "chainId"), ("Nonce", "nonce"),
    ("Issued", "issuedAt"), ("Expires", "expirationTime"), ("Not before", "notBefore"), ("Scheme", "scheme"),
    ("Request id", "requestId")]

  function SiweLines(fields: map<string, string>, order: seq<(string, string)>): seq<Line> {
    if order == [] then []
    else
      var (name, key) := order[0];
      var line := if key in fields then [Line(name + ": " + fields[key], Info)] else [];
      line + SiweLines(fields, order[1..])
  }

  function SplitLines(s: string, current: string): seq<string> {
    if s == [] then [current]
    else if s[0] == '\n' then [current] + SplitLines(s[1..], "")
    else SplitLines(s[1..], current + [s[0]])
  }

  function ResourceLines(fields: map<string, string>): seq<Line> {
    if "resources" !in fields then []
    else
      var parts := SplitLines(fields["resources"], "");
      [Line("Resources:", Info)] + seq(|parts|, i requires 0 <= i < |parts| => Line(parts[i], Info))
  }

  function SiweScreen(fields: map<string, string>): seq<Line> {
    SiweLines(fields, SIWE_ORDER) + ResourceLines(fields)
  }

  function FieldLines(fields: seq<Row>): (lines: seq<Line>)
    ensures |lines| == |fields|
    ensures forall i :: 0 <= i < |fields| ==>
      lines[i] == Line(fields[i].caption + ": " + fields[i].value, if IsUnlimitedAmount(fields[i].value) then Danger else Info)
  {
    seq(|fields|, i requires 0 <= i < |fields| =>
      Line(fields[i].caption + ": " + fields[i].value, if IsUnlimitedAmount(fields[i].value) then Danger else Info))
  }

  /** What heads the screen of a generic message, before its fields. */
  function GenericHead(v: GenericView): seq<string> {
    ["Sign structured data", "Type: " + v.primaryType]
    + (if v.domain.name.Some? && v.domain.name.value != "" then
         ["From: " + v.domain.name.value
          + if v.domain.version.Some? && v.domain.version.value != "" then " v" + v.domain.version.value else ""]
       else [])
    + (if v.domain.chainId.Some? then ["Chain " + ChainLabel(v.domain.chainId.value)] else [])
    + (if v.domain.verifyingContract.Some? && v.domain.verifyingContract.value != "" then
         ["Contract: " + v.domain.verifyingContract.value] else [])
    + [""]
  }

  function InfoLines(texts: seq<string>): (lines: seq<Line>)
    ensures |lines| == |texts| && forall i :: 0 <= i < |texts| ==> lines[i] == Line(texts[i], Info)
  {
    seq(|texts|, i requires 0 <= i < |texts| => Line(texts[i], Info))
  }

  function ReasonLines(primaryType: string): seq<Line> {
    var reason := DangerousPrimaryType(primaryType);
    if reason.Some? then [Line(reason.value, Danger)] else []
  }

  function GenericLines(v: GenericView): seq<Line> {
    ReasonLines(v.primaryType) + InfoLines(GenericHead(v)) + FieldLines(v.fields)
  }

  function FormatConsentDisplay(k: Codec, c: SignConsent): seq<Line> {
    match c
    case MessageConsent(message) => [Line("Sign message:", Info), Line(message, Info)]
    case BatchConsent(view) => EvmViewLines(k, view)
    case TransactionConsent(view) => EvmViewLines(k, view)
    case AuthorizationConsent(chainId, implementation) =>
      [Line("Authorize account upgrade to " + implementation + " on " + ChainLabel(chainId), Danger)]
    case SendConsent(view, delegation) =>
      DelegationLines(delegation, " on " + ChainLabel(view.chainId)) + EvmViewLines(k, view)
    case SponsoredConsent(view, delegation) => DelegationLines(delegation, "") + EvmViewLines(k, view)
    case UserOpConsent(view, delegation) =>
      DelegationLines(delegation, " on " + ChainLabel(view.chainId)) + EvmViewLines(k, view)
    case SiweConsent(fields) => SiweScreen(fields)
    case GenericConsent(v) => GenericLines(v)
  }

  // ---- simulation rows ----

  datatype SimulationResult =
    | Unsimulated
    | Reverted(reason: Option<string>)
    | Simulated(deltas: seq<Deltas.AssetDelta>, approvals: seq<Deltas.ApprovalGrant>)

  function Verb(d: Deltas.Direction): string {
    if d.Out? then "You send " else "You receive "
  }

  function DeltaParts(k: Codec, chainId: int, d: Deltas.AssetDelta): seq<string> {
    match d.asset
    case NativeAsset => [Verb(d.direction), k.units(d.amount, 18), " ", NativeSymbol(chainId)]
    case Nft(token, id) => [Verb(d.direction), "NFT #", NatToString(id), " of collection ", token]
    case Multi(token, id) =>
      [Verb(d.direction), NatToString(d.amount), " of token #", NatToString(id), " in collection ", token]
    case Fungible(token) =>
      match k.profile(chainId, token)
      case Some(p) => [Verb(d.direction), k.units(d.amount, p.decimals), " ", p.symbol]
      case None => [Verb(d.direction), NatToString(d.amount), " base units of token ", token, " (unknown token)"]
  }

  function AssetDeltaLine(k: Codec, chainId: int, d: Deltas.AssetDelta): Line {
    Line(Join(DeltaParts(k, chainId, d)), if d.asset.Fungible? && k.profile(chainId, d.asset.token).None? then Caution else Info)
  }

  function GrantParts(k: Codec, chainId: int, g: Deltas.ApprovalGrant): seq<string> {
    match g
    case CollectionGrant(token, spender, approved) =>
      if approved then ["Approval granted: ", spender, " may transfer ALL of your tokens in collection ", token]
      else ["Approval revoked: ", spender, " can no longer transfer tokens in collection ", token]
    case Erc20Grant(token, spender, amount, unlimited) =>
      ["Approval granted: ", spender, " may spend "]
      + (match k.profile(chainId, token)
         case Some(p) => [k.units(amount, p.decimals), " ", p.symbol]
         case None => [NatToString(amount), " base units of token ", token])
      + if unlimited then [UNLIMITED] else []
  }

  predicate DangerousGrant(g: Deltas.ApprovalGrant) {
    match g
    case CollectionGrant(_, _, approved) => approved
    case Erc20Grant(_, _, _, unlimited) => unlimited
  }

  function ApprovalGrantLine(k: Codec, chainId: int, g: Deltas.ApprovalGrant): Line {
    Line(Join(GrantParts(k, chainId, g)), if DangerousGrant(g) then Danger else Info)
  }

  function DeltaLines(k: Codec, chainId: int, deltas: seq<Deltas.AssetDelta>): (lines: seq<Line>)
    ensures |lines| == |deltas| && forall i :: 0 <= i < |deltas| ==> lines[i] == AssetDeltaLine(k, chainId, deltas[i])
  {
    seq(|deltas|, i requires 0 <= i < |deltas| => AssetDeltaLine(k, chainId, deltas[i]))
  }

  function GrantLines(k: Codec, chainId: int, grants: seq<Deltas.ApprovalGrant>): (lines: seq<Line>)
    ensures |lines| == |grants| && forall i :: 0 <= i < |grants| ==> lines[i] == ApprovalGrantLine(k, chainId, grants[i])
  {
    seq(|grants|, i requires 0 <= i < |grants| => ApprovalGrantLine(k, chainId, grants[i]))
  }

  function SimulationDisplayLines(k: Codec, result: SimulationResult, chainId: int): seq<Line> {
    match result
    case Unsimulated =>
      [Line("Not simulated" + " — the details above are decoded from the request, not verified on chain", Caution)]
    case Reverted(reason) =>
      [Line("This transaction would fail on chain: " + (if reason.Some? then reason.value else "no reason given"), Danger)]
    case Simulated(deltas, approvals) =>
      DeltaLines(k, chainId, deltas) + GrantLines(k, chainId, approvals)
  }

  // ---- severity lemmas ----

  /** The fold is the maximum: some line carries it (or the list is empty), and no line exceeds it. */
  lemma {:induction false} HighestIsMaximum(lines: seq<Line>)
    ensures forall i :: 0 <= i < |lines| ==> Rank(lines[i].severity) <= Rank(HighestSeverity(lines))
    ensures HighestSeverity(lines) == Info || exists i :: 0 <= i < |lines| && lines[i].severity == HighestSeverity(lines)
  {
    if lines != [] {
      var n := |lines| - 1;
      HighestIsMaximum(lines[..n]);
      if HighestSeverity(lines) != Info && HighestSeverity(lines) != lines[n].severity {
        var i :| 0 <= i < n && lines[..n][i].severity == HighestSeverity(lines[..n]);
        assert lines[i].severity == HighestSeverity(lines);
      }
    }
  }

  /** Danger anywhere is danger overall, and only then. */
  lemma DangerIffSome(lines: seq<Line>)
    ensures HighestSeverity(lines) == Danger <==> exists i :: 0 <= i < |lines| && lines[i].severity == Danger
  {
    HighestIsMaximum(lines);
    if i :| 0 <= i < |lines| && lines[i].severity == Danger {
      assert Rank(lines[i].severity) <= Rank(HighestSeverity(lines));
    }
  }

  /** Appending lines never lowers the severity, and adds only what they carry themselves. */
  lemma {:induction false} AppendingNeverLowers(lines: seq<Line>, more: seq<Line>)
    ensures HighestSeverity(lines + more) == Worse(HighestSeverity(lines), HighestSeverity(more))
  {
    if more == [] {
      assert lines + more == lines;
    } else {
      var n := |more| - 1;
      assert (lines + more)[..|lines + more| - 1] == lines + more[..n];
      AppendingNeverLowers(lines, more[..n]);
    }
  }

  /** The ERC-20 decoding is used only when it is one of three functions and its addresses are valid. */
  predicate UsesErc20(k: Codec, c: Erc20Call) {
    match c
    case Transfer(dest, _) => k.checksum(dest).Some?
    case Approve(spender, _) => k.checksum(spender).Some?
    case TransferFrom(source, dest, _) => k.checksum(dest).Some? && k.checksum(source).Some?
    case OtherErc20 => false
  }

  /** A call that grants what the policy calls dangerous: an approve or increaseAllowance of at least 2^159, or a
      setApprovalForAll(true). */
  predicate IsGrant(k: Codec, call: Call) {
    var c := k.erc20(call.data);
    if c.Some? && UsesErc20(k, c.value) then c.value.Approve? && c.value.amount >= UNLIMITED_UINT160_THRESHOLD
    else
      match k.approval(call.data)
      case None => false
      case Some(IncreaseAllowance(spender, added)) => k.checksum(spender).Some? && added >= UNLIMITED_UINT160_THRESHOLD
      case Some(SetApprovalForAll(operator, approved)) => k.checksum(operator).Some? && approved
  }

  lemma CallSeverityDanger(k: Codec, chainId: int, call: Call)
    requires DecodeCall(k, chainId, call).Ok?
    ensures CallSeverity(DecodeCall(k, chainId, call).value) == Danger <==> IsGrant(k, call)
  {
    var c := k.erc20(call.data);
    if c.Some? && UsesErc20(k, c.value) {
      if c.value.Approve? { UnlimitedExactly(c.value.amount); }
    } else {
      var a := k.approval(call.data);
      if a.Some? && a.value.IncreaseAllowance? { UnlimitedExactly(a.value.added); }
    }
  }

  /** A call's line is at danger exactly when the call is such a grant. */
  lemma CallLineDanger(k: Codec, chainId: int, call: Call)
    requires DecodeCall(k, chainId, call).Ok?
    ensures EvmCallLine(k, chainId, DecodeCall(k, chainId, call).value).severity == Danger <==> IsGrant(k, call)
  {
    CallSeverityDanger(k, chainId, call);
  }

  // ---- what a line says about its call ----

  /** The line names the call's target and counterparty, in the words of the call's kind. Native value is named for a
      plain transfer, calldata in full for anything unrecognised. */
  ghost predicate Describes(k: Codec, call: Call, line: Line) {
    k.checksum(call.to).Some? &&
    var to := k.checksum(call.to).value;
    var c := k.erc20(call.data);
    if c.Some? && UsesErc20(k, c.value) then
      match c.value
      case Transfer(dest, _) => StandsAt(line.text, "Send ", 0) && Ends(line.text, " to " + k.checksum(dest).value)
      case Approve(spender, _) => Begins(line.text, "Approve ", k.checksum(spender).value)
      case TransferFrom(source, dest, _) =>
        StandsAt(line.text, "Move ", 0)
        && Ends(line.text, " from " + k.checksum(source).value + (" to " + k.checksum(dest).value))
      case OtherErc20 => true
    else
      match k.approval(call.data)
      case Some(SetApprovalForAll(operator, approved)) =>
        k.checksum(operator).Some? ==>
          Begins(line.text, if approved then "Approve " else "Revoke ", k.checksum(operator).value) && Ends(line.text, to)
      case Some(IncreaseAllowance(spender, _)) =>
        k.checksum(spender).Some? ==> Begins(line.text, "Increase ", k.checksum(spender).value)
      case None =>
        if call.value > 0 && call.data == "0x" then StandsAt(line.text, "Send ", 0) && Ends(line.text, " to " + to)
        else
          Begins(line.text, "Unrecognized call to ", to)
          && Mentions(line.text, IntToString(call.value)) && Ends(line.text, call.data)
  }

  /** The token amount a call moves or grants, if it is one of the recognised calls with an amount. */
  function TokenAmount(k: Codec, call: Call): Option<nat> {
    var c := k.erc20(call.data);
    if c.Some? && UsesErc20(k, c.value) then Some(AmountOf(c.value))
    else
      match k.approval(call.data)
      case Some(IncreaseAllowance(spender, added)) => if k.checksum(spender).Some? then Some(added) else None
      case _ => None
  }

  /** A registered token is named by its symbol with the amount in its decimals; any other by its address, with the
      amount in base units. */
  ghost predicate NamesToken(k: Codec, chainId: int, call: Call, line: Line) {
    k.checksum(call.to).Some? && TokenAmount(k, call).Some? ==>
      var to, amount := k.checksum(call.to).value, TokenAmount(k, call).value;
      match k.profile(chainId, to)
      case Some(p) => p.symbol != "" ==> Mentions(line.text, p.symbol) && Mentions(line.text, k.units(amount, p.decimals))
      case None => Mentions(line.text, to) && Mentions(line.text, NatToString(amount))
  }

  /** A plain transfer names its value in the chain's native unit. */
  ghost predicate NamesNative(k: Codec, chainId: int, call: Call, line: Line) {
    PlainTransfer(k, call) ==>
      Mentions(line.text, k.units(call.value, 18))
      && Mentions(line.text, if chainId == 56 then "BNB" else if chainId == 5042002 then "USDC" else "ETH")
  }

  function AmountOf(c: Erc20Call): nat {
    match c
    case Transfer(_, amount) => amount
    case Approve(_, amount) => amount
    case TransferFrom(_, _, amount) => amount
    case OtherErc20 => 0
  }

  /** What the text of a line says, in terms of the decoded call. */
  ghost predicate Says(line: ConsentLine, text: string) {
    match (line.kind, line.token)
    case (Erc20Transfer, Some(t)) => StandsAt(text, "Send ", 0) && Ends(text, " to " + t.counterparty)
    case (Erc20Approve, Some(t)) => Begins(text, "Approve ", t.counterparty)
    case (Erc20IncreaseAllowance, Some(t)) => Begins(text, "Increase ", t.counterparty)
    case (Erc20TransferFrom, Some(t)) =>
      StandsAt(text, "Move ", 0)
      && (t.source.Some? ==> Ends(text, " from " + t.source.value + (" to " + t.counterparty)))
    case (Erc721ApproveAll, Some(t)) =>
      Begins(text, if t.approved == Some(true) then "Approve " else "Revoke ", t.counterparty) && Ends(text, line.to)
    case (Native, _) => StandsAt(text, "Send ", 0) && Ends(text, " to " + line.to)
    case _ => Begins(text, "Unrecognized call to ", line.to) && Mentions(text, line.valueWei) && Ends(text, line.raw)
  }

  function LineParts(k: Codec, chainId: int, line: ConsentLine): seq<string> {
    CallParts(k, chainId, line) + if Warned(line) then [UNLIMITED] else []
  }

  lemma GrantTextSays(k: Codec, chainId: int, line: ConsentLine)
    requires line.token.Some? && (line.kind == Erc20Approve || line.kind == Erc20IncreaseAllowance || line.kind == Erc721ApproveAll)
    ensures Says(line, Join(LineParts(k, chainId, line)))
  {
    var parts := LineParts(k, chainId, line);
    FirstTwo(parts);
    LastTwo(parts);
    assert line.kind == Erc721ApproveAll ==> |parts| == 4 && parts[3] == line.to;
  }

  lemma MoveTextSays(k: Codec, chainId: int, line: ConsentLine)
    requires line.token.Some? && (line.kind == Erc20Transfer || line.kind == Erc20TransferFrom)
    ensures Says(line, Join(LineParts(k, chainId, line)))
  {
    var parts := LineParts(k, chainId, line);
    var n := |parts|;
    AllPieces(parts);
    LastTwo(parts);
    assert parts[n - 1] == line.token.value.counterparty && parts[n - 2] == " to ";
    if line.kind == Erc20TransferFrom && line.token.value.source.Some? {
      LastFour(parts);
      assert parts[n - 3] == line.token.value.source.value && parts[n - 4] == " from ";
    }
  }

  lemma PlainTextSays(k: Codec, chainId: int, line: ConsentLine)
    requires line.kind == Native || line.kind == Raw || line.token.None?
    ensures Says(line, Join(LineParts(k, chainId, line)))
  {
    var parts := LineParts(k, chainId, line);
    AllPieces(parts);
    FirstTwo(parts);
    LastTwo(parts);
    assert |parts| == 6;
    if line.kind == Native {
      assert parts[5] == line.to && parts[4] == " to ";
    } else {
      assert parts[1] == line.to && parts[3] == line.valueWei && parts[5] == line.raw;
    }
  }

  lemma LineSays(k: Codec, chainId: int, line: ConsentLine)
    ensures Says(line, EvmCallLine(k, chainId, line).text)
  {
    assert EvmCallLine(k, chainId, line).text == Join(LineParts(k, chainId, line));
    if line.kind == Native || line.kind == Raw || line.token.None? {
      PlainTextSays(k, chainId, line);
    } else if line.kind == Erc20Transfer || line.kind == Erc20TransferFrom {
      MoveTextSays(k, chainId, line);
    } else {
      GrantTextSays(k, chainId, line);
    }
  }

  lemma SaidTokenIsDescribed(k: Codec, chainId: int, call: Call, line: Line)
    requires DecodeCall(k, chainId, call).Ok? && Says(DecodeCall(k, chainId, call).value, line.text)
    requires k.erc20(call.data).Some? && UsesErc20(k, k.erc20(call.data).value)
    ensures Describes(k, call, line)
  {
  }

  lemma SaidOtherIsDescribed(k: Codec, chainId: int, call: Call, line: Line)
    requires DecodeCall(k, chainId, call).Ok? && Says(DecodeCall(k, chainId, call).value, line.text)
    requires k.erc20(call.data).None? || !UsesErc20(k, k.erc20(call.data).value)
    ensures Describes(k, call, line)
  {
    assert Erc20Token(k, chainId, k.checksum(call.to).value, call.data).None?;
  }

  /** Every decoded call is described by its line. */
  lemma CallLineDescribes(k: Codec, chainId: int, call: Call)
    requires DecodeCall(k, chainId, call).Ok?
    ensures Describes(k, call, EvmCallLine(k, chainId, DecodeCall(k, chainId, call).value))
  {
    LineSays(k, chainId, DecodeCall(k, chainId, call).value);
    var line := EvmCallLine(k, chainId, DecodeCall(k, chainId, call).value);
    if k.erc20(call.data).Some? && UsesErc20(k, k.erc20(call.data).value) {
      SaidTokenIsDescribed(k, chainId, call, line);
    } else {
      SaidOtherIsDescribed(k, chainId, call, line);
    }
  }

  lemma UnknownAmountSaid(k: Codec, chainId: int, line: ConsentLine)
    requires line.token.Some? && !Known(line.token.value)
    requires line.kind == Erc20Transfer || line.kind == Erc20Approve || line.kind == Erc20TransferFrom
      || line.kind == Erc20IncreaseAllowance
    ensures var text := EvmCallLine(k, chainId, line).text;
      Mentions(text, line.token.value.baseUnits) && Mentions(text, line.to)
  {
    var parts := LineParts(k, chainId, line);
    AllPieces(parts);
    var at := AmountPlace(line);
    assert parts[at] == line.token.value.baseUnits && parts[at + 2] == line.to;
  }

  lemma KnownAmountSaid(k: Codec, chainId: int, line: ConsentLine)
    requires line.token.Some? && Known(line.token.value)
    requires line.kind == Erc20Transfer || line.kind == Erc20Approve || line.kind == Erc20TransferFrom
      || line.kind == Erc20IncreaseAllowance
    ensures var text := EvmCallLine(k, chainId, line).text;
      Mentions(text, line.token.value.amount.value) && Mentions(text, line.token.value.symbol.value)
  {
    var parts := LineParts(k, chainId, line);
    AllPieces(parts);
    var at := AmountPlace(line);
    assert parts[at] == line.token.value.amount.value && parts[at + 2] == line.token.value.symbol.value;
  }

  /** Where the amount stands among the pieces of a line. */
  function AmountPlace(line: ConsentLine): nat {
    if line.kind == Erc20Approve || line.kind == Erc20IncreaseAllowance then 3 else 1
  }

  /** What a recognised token call decodes to. */
  lemma TokenDecoded(k: Codec, chainId: int, call: Call)
    requires DecodeCall(k, chainId, call).Ok? && TokenAmount(k, call).Some?
    ensures var line := DecodeCall(k, chainId, call).value;
      var amount := TokenAmount(k, call).value;
      && line.token.Some? && line.to == k.checksum(call.to).value
      && (line.kind == Erc20Transfer || line.kind == Erc20Approve || line.kind == Erc20TransferFrom
          || line.kind == Erc20IncreaseAllowance)
      && line.token.value.baseUnits == NatToString(amount)
      && line.token.value.symbol.Some? == line.token.value.amount.Some? == k.profile(chainId, line.to).Some?
      && (k.profile(chainId, line.to).Some? ==>
            line.token.value.symbol.value == k.profile(chainId, line.to).value.symbol
            && line.token.value.amount.value == k.units(amount, k.profile(chainId, line.to).value.decimals))
  {
  }

  lemma TokenNamed(k: Codec, chainId: int, call: Call)
    requires DecodeCall(k, chainId, call).Ok?
    ensures NamesToken(k, chainId, call, EvmCallLine(k, chainId, DecodeCall(k, chainId, call).value))
  {
    if TokenAmount(k, call).Some? {
      TokenDecoded(k, chainId, call);
      var line := DecodeCall(k, chainId, call).value;
      if Known(line.token.value) { KnownAmountSaid(k, chainId, line); } else { UnknownAmountSaid(k, chainId, line); }
    }
  }

  lemma NativeAmountSaid(k: Codec, chainId: int, line: ConsentLine, value: int)
    requires line.kind == Native && line.valueWei == IntToString(value)
    ensures Mentions(EvmCallLine(k, chainId, line).text, k.units(value, 18))
    ensures Mentions(EvmCallLine(k, chainId, line).text, NativeSymbol(chainId))
  {
    var parts := LineParts(k, chainId, line);
    AllPieces(parts);
    BigIntRoundTrip(value);
    assert parts[1] == k.units(value, 18) && parts[3] == NativeSymbol(chainId);
  }

  lemma SymbolIs(chainId: int)
    ensures NativeSymbol(chainId) == if chainId == 56 then "BNB" else if chainId == 5042002 then "USDC" else "ETH"
  {
  }

  predicate PlainTransfer(k: Codec, call: Call) {
    (k.erc20(call.data).None? || !UsesErc20(k, k.erc20(call.data).value))
    && k.approval(call.data).None? && call.value > 0 && call.data == "0x"
  }

  lemma NativeDecoded(k: Codec, chainId: int, call: Call)
    requires DecodeCall(k, chainId, call).Ok? && PlainTransfer(k, call)
    ensures var line := DecodeCall(k, chainId, call).value;
      line.kind == Native && line.valueWei == IntToString(call.value)
  {
  }

  lemma NativeNamed(k: Codec, chainId: int, call: Call)
    requires DecodeCall(k, chainId, call).Ok?
    ensures NamesNative(k, chainId, call, EvmCallLine(k, chainId, DecodeCall(k, chainId, call).value))
  {
    if PlainTransfer(k, call) {
      NativeDecoded(k, chainId, call);
      SymbolIs(chainId);
      NativeAmountSaid(k, chainId, DecodeCall(k, chainId, call).value, call.value);
    }
  }

  /** All that a line tells of its call: target, counterparty and kind, and the amounts. */
  ghost predicate Tells(k: Codec, chainId: int, call: Call, line: Line) {
    Describes(k, call, line) && NamesToken(k, chainId, call, line) && NamesNative(k, chainId, call, line)
  }

  /** Every decoded call is told in full by its line. */
  lemma CallLineTells(k: Codec, chainId: int, call: Call)
    requires DecodeCall(k, chainId, call).Ok?
    ensures Tells(k, chainId, call, EvmCallLine(k, chainId, DecodeCall(k, chainId, call).value))
  {
    CallLineDescribes(k, chainId, call);
    TokenNamed(k, chainId, call);
    NativeNamed(k, chainId, call);
  }

  // ---- the generic typed-data screen ----

  lemma AllInfo(lines: seq<Line>)
    requires forall i :: 0 <= i < |lines| ==> lines[i].severity == Info
    ensures HighestSeverity(lines) == Info
  {
    HighestIsMaximum(lines);
  }

  lemma ReasonSeverity(primaryType: string)
    ensures HighestSeverity(ReasonLines(primaryType)) == if primaryType in DANGEROUS_PRIMARY_TYPES then Danger else Info
  {
    var lines := ReasonLines(primaryType);
    if lines != [] { assert lines[..|lines| - 1] == []; }
  }

  lemma FieldLinesDangerIff(fields: seq<Row>)
    ensures HighestSeverity(FieldLines(fields)) == Danger <==> exists i :: 0 <= i < |fields| && IsUnlimitedAmount(fields[i].value)
  {
    var lines := FieldLines(fields);
    DangerIffSome(lines);
    assert forall i :: 0 <= i < |fields| ==> (lines[i].severity == Danger <==> IsUnlimitedAmount(fields[i].value));
  }

  lemma ThreeParts(a: seq<Line>, b: seq<Line>, c: seq<Line>)
    requires HighestSeverity(b) == Info
    ensures HighestSeverity(a + b + c) == Worse(HighestSeverity(a), HighestSeverity(c))
  {
    AppendingNeverLowers(a + b, c);
    AppendingNeverLowers(a, b);
  }

  /** A generic typed-data screen is at danger exactly when its primary type is one of the dangerous ones or some field
      holds an amount of at least 2^159. */
  lemma GenericDangerIff(v: GenericView)
    ensures HighestSeverity(GenericLines(v)) == Danger
      <==> v.primaryType in DANGEROUS_PRIMARY_TYPES || exists i :: 0 <= i < |v.fields| && IsUnlimitedAmount(v.fields[i].value)
  {
    AllInfo(InfoLines(GenericHead(v)));
    ThreeParts(ReasonLines(v.primaryType), InfoLines(GenericHead(v)), FieldLines(v.fields));
    ReasonSeverity(v.primaryType);
    FieldLinesDangerIff(v.fields);
  }

  /** The same of the message itself: a leaf anywhere in it, at any depth, holds such an amount. */
  lemma GenericDangerInLeaves(domain: Domain, primaryType: string, message: Value)
    ensures HighestSeverity(GenericLines(GenericView(domain, primaryType, FlattenFields(message, "")))) == Danger
      <==> primaryType in DANGEROUS_PRIMARY_TYPES || exists leaf: Leaf :: leaf in Leaves(message) && IsUnlimitedAmount(leaf.text)
  {
    var rows := FlattenFields(message, "");
    GenericDangerIff(GenericView(domain, primaryType, rows));
    RowsAreLeaves(message, "");
    assert forall i :: 0 <= i < |rows| ==> rows[i].value == Leaves(message)[i].text;
    if i :| 0 <= i < |rows| && IsUnlimitedAmount(rows[i].value) { assert Leaves(message)[i] in Leaves(message); }
  }

  // ---- what the other lines say ----

  /** The line of the fee ceiling names the ceiling. */
  lemma MaxFeeNamed(k: Codec, chainId: int, maxFeeWei: int)
    ensures Mentions(MaxFeeLine(k, chainId, maxFeeWei).text, k.units(maxFeeWei, 18))
    ensures Mentions(MaxFeeLine(k, chainId, maxFeeWei).text, NativeSymbol(chainId))
  {
    AllPieces(MaxFeeParts(k, chainId, maxFeeWei));
    assert MaxFeeParts(k, chainId, maxFeeWei)[3] == k.units(maxFeeWei, 18);
    assert MaxFeeParts(k, chainId, maxFeeWei)[1] == NativeSymbol(chainId);
  }

  /** The fee line names the amount of the fee, in the token's decimals, in base units, or in wei. */
  lemma FeeNamed(k: Codec, chainId: int, fee: ConsentLine)
    ensures var text := FeeLine(k, chainId, fee).text;
      if fee.token.Some? && Known(fee.token.value) then
        Mentions(text, fee.token.value.amount.value) && Mentions(text, fee.token.value.symbol.value)
      else if fee.token.Some? then Mentions(text, fee.token.value.baseUnits) && Mentions(text, fee.to)
      else if fee.kind == Native then Mentions(text, FormatEther(k, fee.valueWei))
      else Mentions(text, fee.valueWei) && Mentions(text, fee.to)
    ensures FeeLine(k, chainId, fee).severity == if fee.token.Some? && !Known(fee.token.value) then Caution else Info
  {
    var parts := FeeParts(k, chainId, fee);
    AllPieces(parts);
    assert |parts| >= 4;
    assert Mentions(Join(parts), parts[1]) && Mentions(Join(parts), parts[3]);
  }

  /** A simulated row says which way the asset goes, how much of it, and which asset. */
  ghost predicate TellsDelta(k: Codec, chainId: int, d: Deltas.AssetDelta, text: string) {
    var verb := if d.direction.Out? then "You send " else "You receive ";
    match d.asset
    case NativeAsset => Begins(text, verb, k.units(d.amount, 18)) && Ends(text, NativeSymbol(chainId))
    case Nft(token, id) => Begins(text, verb, "NFT #") && Mentions(text, NatToString(id)) && Ends(text, token)
    case Multi(token, id) => Begins(text, verb, NatToString(d.amount)) && Mentions(text, NatToString(id)) && Ends(text, token)
    case Fungible(token) =>
      match k.profile(chainId, token)
      case Some(p) => Begins(text, verb, k.units(d.amount, p.decimals)) && Ends(text, p.symbol)
      case None => Begins(text, verb, NatToString(d.amount)) && Mentions(text, token)
  }

  lemma DeltaTold(k: Codec, chainId: int, d: Deltas.AssetDelta)
    ensures TellsDelta(k, chainId, d, AssetDeltaLine(k, chainId, d).text)
    ensures AssetDeltaLine(k, chainId, d).severity ==
      if d.asset.Fungible? && k.profile(chainId, d.asset.token).None? then Caution else Info
  {
    if d.asset.Fungible? { FungibleTold(k, chainId, d); } else if d.asset.Multi? { MultiTold(k, chainId, d); } else { OneTold(k, chainId, d); }
  }

  lemma OneTold(k: Codec, chainId: int, d: Deltas.AssetDelta)
    requires d.asset.NativeAsset? || d.asset.Nft?
    ensures TellsDelta(k, chainId, d, Join(DeltaParts(k, chainId, d)))
  {
    var parts := DeltaParts(k, chainId, d);
    FirstTwo(parts);
    LastTwo(parts);
    if d.asset.Nft? {
      assert |parts| == 5 && parts[2] == NatToString(d.asset.id) && parts[4] == d.asset.token;
      AllPieces(parts);
    }
  }

  lemma MultiTold(k: Codec, chainId: int, d: Deltas.AssetDelta)
    requires d.asset.Multi?
    ensures TellsDelta(k, chainId, d, Join(DeltaParts(k, chainId, d)))
  {
    var parts := DeltaParts(k, chainId, d);
    assert |parts| == 6 && parts[3] == NatToString(d.asset.id) && parts[5] == d.asset.token;
    FirstTwo(parts);
    LastTwo(parts);
    AllPieces(parts);
  }

  lemma FungibleTold(k: Codec, chainId: int, d: Deltas.AssetDelta)
    requires d.asset.Fungible?
    ensures TellsDelta(k, chainId, d, Join(DeltaParts(k, chainId, d)))
  {
    var parts := DeltaParts(k, chainId, d);
    FirstTwo(parts);
    if k.profile(chainId, d.asset.token).Some? {
      LastTwo(parts);
    } else {
      assert |parts| == 5 && parts[3] == d.asset.token;
      AllPieces(parts);
    }
  }

  lemma PieceOfPiece(text: string, piece: string, part: string, at: nat)
    requires Mentions(text, piece) && StandsAt(piece, part, at)
    ensures Mentions(text, part)
  {
    var i: nat :| StandsAt(text, piece, i);
    forall j | 0 <= j < |part| ensures text[i + at + j] == part[j] {
      assert text[i..i + |piece|][at + j] == piece[at + j];
      assert piece[at..at + |part|][j] == part[j];
    }
    assert text[i + at..i + at + |part|] == part;
    assert StandsAt(text, part, i + at);
  }

  lemma LastUnlimitedSaid(parts: seq<string>)
    requires |parts| > 0 && parts[|parts| - 1] == UNLIMITED
    ensures Mentions(Join(parts), "UNLIMITED")
  {
    AllPieces(parts);
    assert Mentions(Join(parts), parts[|parts| - 1]);
    assert UNLIMITED == " — " + "UNLIMITED";
    assert (" — " + "UNLIMITED")[3..12] == "UNLIMITED";
    PieceOfPiece(Join(parts), UNLIMITED, "UNLIMITED", 3);
  }

  lemma GrantKind(k: Codec, chainId: int, call: Call)
    requires DecodeCall(k, chainId, call).Ok? && IsGrant(k, call) && TokenAmount(k, call).Some?
    ensures var kind := DecodeCall(k, chainId, call).value.kind; kind == Erc20Approve || kind == Erc20IncreaseAllowance
    ensures TokenAmount(k, call).value >= UNLIMITED_UINT160_THRESHOLD
  {
  }

  /** An unlimited approve or increaseAllowance says so. */
  lemma UnlimitedSaid(k: Codec, chainId: int, call: Call)
    requires DecodeCall(k, chainId, call).Ok? && IsGrant(k, call) && TokenAmount(k, call).Some?
    ensures Mentions(EvmCallLine(k, chainId, DecodeCall(k, chainId, call).value).text, "UNLIMITED")
  {
    var line := DecodeCall(k, chainId, call).value;
    TokenDecoded(k, chainId, call);
    GrantKind(k, chainId, call);
    UnlimitedExactly(TokenAmount(k, call).value);
    assert Warned(line);
    LastUnlimitedSaid(CallParts(k, chainId, line) + [UNLIMITED]);
  }

  /** A collection-wide approval or its revocation, with a valid operator. */
  predicate ForAllCall(k: Codec, call: Call) {
    (k.erc20(call.data).None? || !UsesErc20(k, k.erc20(call.data).value))
    && k.approval(call.data).Some? && k.approval(call.data).value.SetApprovalForAll?
    && k.checksum(k.approval(call.data).value.operator).Some?
  }

  /** A token without a symbol of its own on this chain. */
  predicate Unnamed(k: Codec, chainId: int, token: string) {
    k.profile(chainId, token).None? || k.profile(chainId, token).value.symbol == ""
  }

  lemma TokenCaution(k: Codec, chainId: int, line: ConsentLine)
    requires line.token.Some? && line.token.value.symbol.Some? == line.token.value.amount.Some?
    requires line.kind == Erc20Transfer || line.kind == Erc20Approve || line.kind == Erc20TransferFrom
             || line.kind == Erc20IncreaseAllowance
    requires CallSeverity(line) != Danger
    ensures CallSeverity(line) == Caution <==> line.token.value.symbol.None? || line.token.value.symbol.value == ""
  {
  }

  lemma OtherKind(k: Codec, chainId: int, call: Call)
    requires DecodeCall(k, chainId, call).Ok? && TokenAmount(k, call).None?
    ensures var line := DecodeCall(k, chainId, call).value;
      if ForAllCall(k, call) then line.kind == Erc721ApproveAll && line.token.Some?
      else line.token.None? && line.kind == if call.value > 0 && call.data == "0x" then Native else Raw
  {
  }

  lemma OtherCaution(k: Codec, chainId: int, call: Call, line: ConsentLine)
    requires DecodeCall(k, chainId, call) == Ok(line) && TokenAmount(k, call).None? && CallSeverity(line) != Danger
    ensures CallSeverity(line) == Caution <==> !ForAllCall(k, call) && !(call.value > 0 && call.data == "0x")
  {
    OtherKind(k, chainId, call);
  }

  /** Anything short of a dangerous grant is to be taken with caution exactly when it moves or allows a token without a
      known symbol, or is not recognised at all. */
  lemma CautionIff(k: Codec, chainId: int, call: Call)
    requires DecodeCall(k, chainId, call).Ok? && !IsGrant(k, call)
    ensures EvmCallLine(k, chainId, DecodeCall(k, chainId, call).value).severity == Caution <==>
      if TokenAmount(k, call).Some? then Unnamed(k, chainId, k.checksum(call.to).value)
      else !ForAllCall(k, call) && !(call.value > 0 && call.data == "0x")
  {
    CallSeverityDanger(k, chainId, call);
    if TokenAmount(k, call).Some? {
      TokenDecoded(k, chainId, call);
      TokenCaution(k, chainId, DecodeCall(k, chainId, call).value);
    } else {
      OtherCaution(k, chainId, call, DecodeCall(k, chainId, call).value);
    }
  }

  lemma NoSimulationSaid(k: Codec, chainId: int)
    ensures var lines := SimulationDisplayLines(k, Unsimulated, chainId);
      |lines| == 1 && lines[0].severity == Caution && StandsAt(lines[0].text, "Not simulated", 0)
  {
    var rest := " — the details above are decoded from the request, not verified on chain";
    assert ("Not simulated" + rest)[0..13] == "Not simulated";
  }

  lemma RevertSaid(k: Codec, reason: Option<string>, chainId: int)
    ensures var lines := SimulationDisplayLines(k, Reverted(reason), chainId);
      var said := if reason.Some? then reason.value else "no reason given";
      |lines| == 1 && lines[0].severity == Danger && Mentions(lines[0].text, said)
  {
    var said := if reason.Some? then reason.value else "no reason given";
    MentionsAt("This transaction would fail on chain: ", said, "");
    assert "This transaction would fail on chain: " + said + "" == "This transaction would fail on chain: " + said;
  }

  /** A simulated approval's row names the spender and the token or the amount granted. */
  ghost predicate TellsGrant(k: Codec, chainId: int, g: Deltas.ApprovalGrant, text: string) {
    && Begins(text, if g.CollectionGrant? && !g.approved then "Approval revoked: " else "Approval granted: ", g.spender)
    && (g.CollectionGrant? ==> Ends(text, g.token))
    && (g.Erc20Grant? && k.profile(chainId, g.token).None? ==> Mentions(text, g.token) && Mentions(text, NatToString(g.amount)))
    && (g.Erc20Grant? && k.profile(chainId, g.token).Some? ==>
          Mentions(text, k.units(g.amount, k.profile(chainId, g.token).value.decimals)))
    && (g.Erc20Grant? && g.unlimited ==> Mentions(text, "UNLIMITED"))
  }

  lemma GrantTold(k: Codec, chainId: int, g: Deltas.ApprovalGrant)
    ensures TellsGrant(k, chainId, g, ApprovalGrantLine(k, chainId, g).text)
  {
    if g.CollectionGrant? { CollectionTold(k, chainId, g); } else { AllowanceTold(k, chainId, g); }
  }

  lemma CollectionTold(k: Codec, chainId: int, g: Deltas.ApprovalGrant)
    requires g.CollectionGrant?
    ensures TellsGrant(k, chainId, g, Join(GrantParts(k, chainId, g)))
  {
    var parts := GrantParts(k, chainId, g);
    FirstTwo(parts);
    LastTwo(parts);
    assert |parts| == 4 && parts[3] == g.token;
  }

  lemma AllowanceTold(k: Codec, chainId: int, g: Deltas.ApprovalGrant)
    requires g.Erc20Grant?
    ensures TellsGrant(k, chainId, g, Join(GrantParts(k, chainId, g)))
  {
    var parts := GrantParts(k, chainId, g);
    FirstTwo(parts);
    AllPieces(parts);
    var p := k.profile(chainId, g.token);
    assert parts[3] == if p.Some? then k.units(g.amount, p.value.decimals) else NatToString(g.amount);
    assert p.None? ==> parts[5] == g.token;
    if g.unlimited { LastUnlimitedSaid(parts); }
  }

  ghost predicate DeltasTold(k: Codec, chainId: int, deltas: seq<Deltas.AssetDelta>, rows: seq<Line>) {
    |rows| == |deltas| && forall i :: 0 <= i < |rows| ==> TellsDelta(k, chainId, deltas[i], rows[i].text)
  }

  ghost predicate GrantsTold(k: Codec, chainId: int, grants: seq<Deltas.ApprovalGrant>, rows: seq<Line>) {
    |rows| == |grants| && forall i :: 0 <= i < |rows| ==> TellsGrant(k, chainId, grants[i], rows[i].text)
  }

  /** What the rows of a simulation say: that there was none, with caution; that it reverted and why, at danger; or every
      change of assets and then every approval, a row each and in order. */
  ghost predicate RowsTell(k: Codec, chainId: int, result: SimulationResult, rows: seq<Line>) {
    match result
    case Unsimulated => |rows| == 1 && rows[0].severity == Caution && StandsAt(rows[0].text, "Not simulated", 0)
    case Reverted(reason) =>
      |rows| == 1 && rows[0].severity == Danger && Mentions(rows[0].text, if reason.Some? then reason.value else "no reason given")
    case Simulated(deltas, approvals) =>
      && |rows| == |deltas| + |approvals|
      && DeltasTold(k, chainId, deltas, rows[..|deltas|]) && GrantsTold(k, chainId, approvals, rows[|deltas|..])
  }

  lemma AllDeltasTold(k: Codec, chainId: int, deltas: seq<Deltas.AssetDelta>)
    ensures DeltasTold(k, chainId, deltas, DeltaLines(k, chainId, deltas))
  {
    forall i | 0 <= i < |deltas| ensures TellsDelta(k, chainId, deltas[i], AssetDeltaLine(k, chainId, deltas[i]).text) {
      DeltaTold(k, chainId, deltas[i]);
    }
  }

  lemma AllGrantsTold(k: Codec, chainId: int, grants: seq<Deltas.ApprovalGrant>)
    ensures GrantsTold(k, chainId, grants, GrantLines(k, chainId, grants))
  {
    forall i | 0 <= i < |grants| ensures TellsGrant(k, chainId, grants[i], ApprovalGrantLine(k, chainId, grants[i]).text) {
      GrantTold(k, chainId, grants[i]);
    }
  }

  lemma RowsTold(k: Codec, result: SimulationResult, chainId: int)
    ensures RowsTell(k, chainId, result, SimulationDisplayLines(k, result, chainId))
  {
    match result
    case Unsimulated => NoSimulationSaid(k, chainId);
    case Reverted(reason) => RevertSaid(k, reason, chainId);
    case Simulated(deltas, approvals) =>
      AllDeltasTold(k, chainId, deltas);
      AllGrantsTold(k, chainId, approvals);
      var ds, gs := DeltaLines(k, chainId, deltas), GrantLines(k, chainId, approvals);
      assert (ds + gs)[..|deltas|] == ds && (ds + gs)[|deltas|..] == gs;
  }

  lemma DeltaLinesNotDanger(k: Codec, chainId: int, deltas: seq<Deltas.AssetDelta>)
    ensures HighestSeverity(DeltaLines(k, chainId, deltas)) != Danger
  {
    DangerIffSome(DeltaLines(k, chainId, deltas));
  }

  lemma GrantLinesDangerIff(k: Codec, chainId: int, grants: seq<Deltas.ApprovalGrant>)
    ensures HighestSeverity(GrantLines(k, chainId, grants)) == Danger
      <==> exists i :: 0 <= i < |grants| && DangerousGrant(grants[i])
  {
    var lines := GrantLines(k, chainId, grants);
    DangerIffSome(lines);
    assert forall i :: 0 <= i < |grants| ==> lines[i].severity == if DangerousGrant(grants[i]) then Danger else Info;
  }

  lemma RowsDangerIff(k: Codec, chainId: int, deltas: seq<Deltas.AssetDelta>, approvals: seq<Deltas.ApprovalGrant>)
    ensures HighestSeverity(DeltaLines(k, chainId, deltas) + GrantLines(k, chainId, approvals)) == Danger
      <==> HighestSeverity(GrantLines(k, chainId, approvals)) == Danger
  {
    AppendingNeverLowers(DeltaLines(k, chainId, deltas), GrantLines(k, chainId, approvals));
    DeltaLinesNotDanger(k, chainId, deltas);
  }

  lemma SimulatedDangerIff(k: Codec, chainId: int, deltas: seq<Deltas.AssetDelta>, approvals: seq<Deltas.ApprovalGrant>)
    ensures HighestSeverity(SimulationDisplayLines(k, Simulated(deltas, approvals), chainId)) == Danger
      <==> exists i :: 0 <= i < |approvals| && DangerousGrant(approvals[i])
  {
    RowsDangerIff(k, chainId, deltas, approvals);
    GrantLinesDangerIff(k, chainId, approvals);
  }

  /** The rows of simulated logs are at danger exactly when some log grants an allowance of at least 2^159 or a whole
      collection. */
  lemma SimulatedLogsDangerIff(k: Codec, chainId: int, logs: seq<Deltas.SimLog>, deltas: seq<Deltas.AssetDelta>)
    ensures HighestSeverity(SimulationDisplayLines(k, Simulated(deltas, Deltas.ApprovalsOf(logs)), chainId)) == Danger
      <==> exists g :: g in Deltas.ApprovalsOf(logs) &&
             (if g.CollectionGrant? then g.approved else g.amount >= UNLIMITED_UINT160_THRESHOLD)
  {
    var approvals := Deltas.ApprovalsOf(logs);
    SimulatedDangerIff(k, chainId, deltas, approvals);
    Deltas.GrantsFlagged(logs);
    if i :| 0 <= i < |approvals| && DangerousGrant(approvals[i]) {
      assert approvals[i] in approvals;
    }
  }
}
