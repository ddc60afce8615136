/** The popup's consent, signing and retry loop (`runSign` in auth-popup/ceremony.ts), as the trace of what it shows,
    signs and replies. The user's decisions, the outcomes of the signing gesture and the simulation's answer are
    parameters. */
module SigningCeremony {
  import opened Wrappers
  import opened Text
  import opened Requests
  import opened TypedDataFields
  import opened Consent
  import opened ConsentDisplay
  import opened Danger
  import opened PerformSign

  // ---- what is simulated (auth-popup/sign/simulate-payload.ts) ----

  /** `value` and `data` are handed on as they stand. */
  datatype PayloadCall = PayloadCall(to: string, value: Option<Value>, data: Option<Value>)

  datatype Payload = Payload(chainId: int, account: string, calls: seq<PayloadCall>)

  function TxPayload(k: Codec, tx: Tx): Result<Option<Payload>> {
    if tx.to.None? || tx.to.value == "" || tx.chainId.None? then Ok(None)
    else
      match k.checksum(tx.to.value)
      case None => Err("invalid address")
      case Some(wallet) =>
        Ok(Some(Payload(tx.chainId.value, wallet,
          [PayloadCall(wallet, Some(Scalar(IntToString(if tx.value.Some? then tx.value.value else 0))),
                       Some(Scalar(if tx.data.Some? then tx.data.value else "0x")))])))
  }

  /** The checksummed target of an entry of a typed-data batch. */
  function EntryTarget(k: Codec, entry: Value): Option<string> {
    if !entry.Object? then None
    else
      match Get(entry.entries, "to")
      case Some(Scalar(to)) => k.checksum(to)
      case _ => None
  }

  predicate AllTargets(k: Codec, entries: seq<Value>) {
    forall i :: 0 <= i < |entries| ==> EntryTarget(k, entries[i]).Some?
  }

  function EntryCalls(k: Codec, entries: seq<Value>): seq<PayloadCall>
    requires AllTargets(k, entries)
  {
    seq(|entries|, i requires 0 <= i < |entries| =>
      PayloadCall(EntryTarget(k, entries[i]).value, Get(entries[i].entries, "value"), Get(entries[i].entries, "data")))
  }

  /** The calls of a typed-data batch, fee calls first; every one must have a valid target. */
  function BatchPayload(k: Codec, td: TypedData): Result<Option<Payload>> {
    if !IsAvokBatch(MessageOf(td)) || td.domain.verifyingContract.None? || td.domain.chainId.None? then Ok(None)
    else
      var entries := ListOf(MessageOf(td), "feeCalls") + ListOf(MessageOf(td), "userCalls");
      match k.checksum(td.domain.verifyingContract.value)
      case None => Err("invalid address")
      case Some(account) =>
        if AllTargets(k, entries) then Ok(Some(Payload(td.domain.chainId.value, account, EntryCalls(k, entries))))
        else Err("invalid address")
  }

  /** None for a bare signature, which has nothing to simulate; Err where an address is invalid. */
  function SimulationPayload(k: Codec, request: SignRequest): Result<Option<Payload>> {
    match request
    case SignTransaction(tx) => TxPayload(k, tx)
    case SignSend(tx, _) => TxPayload(k, tx)
    case SignUserOp(op, chainId, _, _) =>
      (match k.checksum(op.sender)
       case None => Err("invalid address")
       case Some(a) => Ok(Some(Payload(chainId, a, [PayloadCall(a, Some(Scalar("0")), Some(Scalar(op.callData)))]))))
    case SignTypedData(td) => BatchPayload(k, td)
    case SignSponsored(td, _) => BatchPayload(k, td)
    case _ => Ok(None)
  }

  // ---- the opening screen ----

  datatype Screen = Screen(lines: seq<Line>, rejectOnly: bool)

  const UNDECODABLE := "Can't show you this request, so it can't be approved."
  const NO_SUMMARY := "No summary could be produced for this request."

  /** The decoded lines, or why there are none. */
  function Summary(k: Codec, request: SignRequest): Result<seq<Line>> {
    match DecodeSignConsent(k, request)
    case Err(e) => Err(e)
    case Ok(consent) =>
      var lines := FormatConsentDisplay(k, consent);
      if lines == [] then Err(NO_SUMMARY) else Ok(lines)
  }

  function Refusal(reason: string): Screen {
    Screen([Line(UNDECODABLE, Danger), Line(reason, Danger)], true)
  }

  /** Simulation rows are put behind the decoded lines; a rejected simulation counts as not simulated, a revert as
      reject-only. Without calls there is nothing to simulate. */
  function WithSimulation(k: Codec, lines: seq<Line>, payload: Option<Payload>, answer: Result<SimulationResult>): Screen {
    match payload
    case None => Screen(lines, false)
    case Some(p) =>
      var result := if answer.Ok? then answer.value else Unsimulated;
      Screen(lines + SimulationDisplayLines(k, result, p.chainId), result.Reverted?)
  }

  /** Err: the payload throws outside every handler, so nothing is ever shown or answered. */
  function Opening(k: Codec, request: SignRequest, answer: Result<SimulationResult>): Result<Screen> {
    match Summary(k, request)
    case Err(reason) => Ok(Refusal(reason))
    case Ok(lines) =>
      match SimulationPayload(k, request)
      case Err(e) => Err(e)
      case Ok(payload) => Ok(WithSimulation(k, lines, payload, answer))
  }

  // ---- the loop ----

  datatype Failure = Failure(name: Option<string>, message: Option<string>)

  predicate HasPiece(text: string, part: string) {
    exists i :: 0 <= i <= |text| && StandsAt(text, part, i)
  }

  /** A failure no retry can fix. */
  predicate IsTerminalSigningFailure(f: Failure) {
    f.name == Some("SecurityError") || (f.message.Some? && HasPiece(Lower(f.message.value), "relying party id"))
  }

  /** A failure is terminal exactly when it is a SecurityError or its message has, somewhere and in any letter case, the
      words "relying party id". */
  lemma TerminalIff(f: Failure)
    ensures IsTerminalSigningFailure(f) <==>
      f.name == Some("SecurityError")
      || (f.message.Some? && exists before, words, after ::
            f.message.value == before + words + after && Lower(words) == "relying party id")
  {
    if f.message.Some? { PieceIff(f.message.value, "relying party id"); }
  }

  /** A lower-case piece is in the lower-cased text exactly where some spelling of it is in the text. */
  lemma PieceIff(text: string, piece: string)
    ensures HasPiece(Lower(text), piece) <==> exists before, words, after :: text == before + words + after && Lower(words) == piece
  {
    if before, words, after :| text == before + words + after && Lower(words) == piece {
      PieceStands(before, words, after);
    }
    if i :| 0 <= i <= |Lower(text)| && StandsAt(Lower(text), piece, i) {
      PieceSpelled(text, piece, i);
    }
  }

  lemma PieceStands(before: string, words: string, after: string)
    ensures StandsAt(Lower(before + words + after), Lower(words), |before|)
  {
    assert Lower(before + words + after)[|before|..|before| + |words|] == Lower(words);
  }

  lemma PieceSpelled(text: string, piece: string, i: nat)
    requires StandsAt(Lower(text), piece, i)
    ensures text == text[..i] + text[i..i + |piece|] + text[i + |piece|..] && Lower(text[i..i + |piece|]) == piece
  {
    assert Lower(text[i..i + |piece|]) == Lower(text)[i..i + |piece|];
  }

  datatype Outcome = Signed(result: string) | Failed(failure: Failure)

  datatype ReplyBody = UserRejected | Delivered(result: string)

  datatype Event =
    | Show(lines: seq<Line>, error: Option<string>, rejectOnly: bool, approved: bool)
    | WaitingForPasskey
    | SignWith(request: SignRequest, outcome: Outcome)
    | Replied(body: ReplyBody)

  /** One pass of the loop: the user's decision, and what signing would come to. */
  datatype Round = Round(approved: bool, outcome: Outcome)

  function Gesture(request: SignRequest, lines: seq<Line>, rejectOnly: bool, error: Option<string>, outcome: Outcome): seq<Event> {
    [Show(lines, error, rejectOnly, true), WaitingForPasskey, SignWith(request, outcome)]
  }

  /** The trace of the loop over these rounds; it is unfinished when the rounds run out first. */
  function Rounds(request: SignRequest, lines: seq<Line>, rejectOnly: bool, error: Option<string>, rounds: seq<Round>): seq<Event>
    decreases |rounds|
  {
    if rounds == [] then []
    else if !rounds[0].approved then [Show(lines, error, rejectOnly, false), Replied(UserRejected)]
    else
      Gesture(request, lines, rejectOnly, error, rounds[0].outcome) +
      match rounds[0].outcome
      case Signed(result) => [Replied(Delivered(result))]
      case Failed(f) => Rounds(request, lines, rejectOnly || IsTerminalSigningFailure(f), f.message, rounds[1..])
  }

  /** The loop as it runs. */
  method RunSign(request: SignRequest, screen: Screen, rounds: seq<Round>) returns (trace: seq<Event>)
    ensures trace == Rounds(request, screen.lines, screen.rejectOnly, None, rounds)
  {
    trace := [];
    var error: Option<string>, rejectOnly := None, screen.rejectOnly;
    for i := 0 to |rounds|
      invariant trace + Rounds(request, screen.lines, rejectOnly, error, rounds[i..])
             == Rounds(request, screen.lines, screen.rejectOnly, None, rounds)
    {
      ghost var before := trace;
      assert rounds[i..][0] == rounds[i] && rounds[i..][1..] == rounds[i + 1..];
      trace := trace + [Show(screen.lines, error, rejectOnly, rounds[i].approved)];
      if !rounds[i].approved {
        trace := trace + [Replied(UserRejected)];
        assert trace == before + [Show(screen.lines, error, rejectOnly, false), Replied(UserRejected)];
        return;
      }
      trace := trace + [WaitingForPasskey];
      trace := trace + [SignWith(request, rounds[i].outcome)];
      ThreePushes(before, Show(screen.lines, error, rejectOnly, true), WaitingForPasskey, SignWith(request, rounds[i].outcome));
      ghost var gesture := Gesture(request, screen.lines, rejectOnly, error, rounds[i].outcome);
      match rounds[i].outcome {
        case Signed(result) =>
          trace := trace + [Replied(Delivered(result))];
          Associate(before, gesture, [Replied(Delivered(result))]);
          return;
        case Failed(f) =>
          error := f.message;
          if IsTerminalSigningFailure(f) { rejectOnly := true; }
          Associate(before, gesture, Rounds(request, screen.lines, rejectOnly, error, rounds[i + 1..]));
      }
    }
  }

  lemma ThreePushes<T>(before: seq<T>, a: T, b: T, c: T)
    ensures before + [a] + [b] + [c] == before + [a, b, c]
  {
  }

  // ---- the gate ----

  predicate TerminalAt(trace: seq<Event>, j: int)
    requires 0 <= j < |trace|
  {
    trace[j].SignWith? && trace[j].outcome.Failed? && IsTerminalSigningFailure(trace[j].outcome.failure)
  }

  /** What the view owes the driver: a reject-only screen resolves false. */
  predicate Honest(trace: seq<Event>) {
    forall i :: 0 <= i < |trace| && trace[i].Show? && trace[i].rejectOnly ==> !trace[i].approved
  }

  predicate TerminalBefore(trace: seq<Event>, i: int)
    requires i <= |trace|
  {
    exists j :: 0 <= j < i && TerminalAt(trace, j)
  }

  /** Every signing follows, directly, an approval of the unchanged lines for that same request. */
  lemma {:induction false} SigningFollowsApproval(request: SignRequest, lines: seq<Line>, rejectOnly: bool, error: Option<string>,
                                                  rounds: seq<Round>, i: nat)
    requires i < |Rounds(request, lines, rejectOnly, error, rounds)|
    ensures var trace := Rounds(request, lines, rejectOnly, error, rounds);
      && (trace[i].SignWith? ==>
            i >= 2 && trace[i - 1] == WaitingForPasskey && trace[i - 2].Show? && trace[i - 2].approved
            && trace[i].request == request)
      && (trace[i].Show? ==> trace[i].lines == lines && (i > 0 ==> trace[i - 1].SignWith?))
      && (trace[i].WaitingForPasskey? ==> i + 1 < |trace| && trace[i + 1].SignWith?)
      && (trace[i].Show? && trace[i].approved ==> i + 2 < |trace| && trace[i + 2].SignWith?)
    decreases |rounds|
  {
    if i >= 3 && rounds[0].approved && rounds[0].outcome.Failed? {
      var f := rounds[0].outcome.failure;
      SigningFollowsApproval(request, lines, rejectOnly || IsTerminalSigningFailure(f), f.message, rounds[1..], i - 3);
    }
  }

  lemma TerminalShift(trace: seq<Event>, head: seq<Event>, tail: seq<Event>, i: nat)
    requires trace == head + tail && |head| == 3 && i <= |tail|
    requires !head[0].SignWith? && !head[1].SignWith? && head[2].SignWith?
    ensures TerminalBefore(trace, i + 3) <==> TerminalAt(head, 2) || TerminalBefore(tail, i)
  {
    assert TerminalAt(trace, 2) <==> TerminalAt(head, 2);
    assert !TerminalAt(trace, 0) && !TerminalAt(trace, 1);
    forall j | 0 <= j < i ensures TerminalAt(trace, j + 3) <==> TerminalAt(tail, j) {
      assert trace[j + 3] == tail[j];
    }
    if j :| 0 <= j < i + 3 && TerminalAt(trace, j) {
      assert j == 2 || TerminalAt(tail, j - 3);
    }
  }

  /** A screen is reject-only exactly when it opened so or a terminal failure came before, and shows the last failure. */
  lemma {:induction false} RejectOnlyExactly(request: SignRequest, lines: seq<Line>, rejectOnly: bool, error: Option<string>,
                                             rounds: seq<Round>, i: nat)
    requires i < |Rounds(request, lines, rejectOnly, error, rounds)|
    requires Rounds(request, lines, rejectOnly, error, rounds)[i].Show?
    ensures var trace := Rounds(request, lines, rejectOnly, error, rounds);
      && (trace[i].rejectOnly <==> rejectOnly || TerminalBefore(trace, i))
      && (if i == 0 then trace[i].error == error
          else trace[i - 1].SignWith? && trace[i - 1].outcome.Failed? && trace[i].error == trace[i - 1].outcome.failure.message)
    decreases |rounds|
  {
    if i > 0 {
      var f := rounds[0].outcome.failure;
      var head := Gesture(request, lines, rejectOnly, error, rounds[0].outcome);
      var tail := Rounds(request, lines, rejectOnly || IsTerminalSigningFailure(f), f.message, rounds[1..]);
      RejectOnlyExactly(request, lines, rejectOnly || IsTerminalSigningFailure(f), f.message, rounds[1..], i - 3);
      TerminalShift(Rounds(request, lines, rejectOnly, error, rounds), head, tail, i - 3);
    }
  }

  /** A reply is the last event; it refuses exactly after a rejection and delivers exactly what was just signed. Both
      are answered at once, so nothing is signed after a success. */
  lemma {:induction false} OneReply(request: SignRequest, lines: seq<Line>, rejectOnly: bool, error: Option<string>,
                                    rounds: seq<Round>, i: nat)
    requires i < |Rounds(request, lines, rejectOnly, error, rounds)|
    ensures var trace := Rounds(request, lines, rejectOnly, error, rounds);
      && (trace[i].Replied? ==> i == |trace| - 1 && i > 0)
      && (trace[i] == Replied(UserRejected) ==> trace[i - 1].Show? && !trace[i - 1].approved)
      && (trace[i].Replied? && trace[i].body.Delivered? ==> trace[i - 1] == SignWith(request, Signed(trace[i].body.result)))
      && (trace[i].Show? && !trace[i].approved ==> i + 1 < |trace| && trace[i + 1] == Replied(UserRejected))
      && (trace[i].SignWith? && trace[i].outcome.Signed? ==>
            i + 1 < |trace| && trace[i + 1] == Replied(Delivered(trace[i].outcome.result)))
    decreases |rounds|
  {
    if i >= 3 && rounds[0].approved && rounds[0].outcome.Failed? {
      var f := rounds[0].outcome.failure;
      OneReply(request, lines, rejectOnly || IsTerminalSigningFailure(f), f.message, rounds[1..], i - 3);
    }
  }

  /** The loop ends by replying, unless every round so far was an approval whose signing failed. */
  lemma {:induction false} FinishedIff(request: SignRequest, lines: seq<Line>, rejectOnly: bool, error: Option<string>, rounds: seq<Round>)
    ensures var trace := Rounds(request, lines, rejectOnly, error, rounds);
      (trace != [] && trace[|trace| - 1].Replied?)
      <==> exists i :: 0 <= i < |rounds| && !(rounds[i].approved && rounds[i].outcome.Failed?)
    decreases |rounds|
  {
    if rounds != [] && rounds[0].approved && rounds[0].outcome.Failed? {
      var f := rounds[0].outcome.failure;
      var tail := Rounds(request, lines, rejectOnly || IsTerminalSigningFailure(f), f.message, rounds[1..]);
      FinishedIff(request, lines, rejectOnly || IsTerminalSigningFailure(f), f.message, rounds[1..]);
      var trace := Rounds(request, lines, rejectOnly, error, rounds);
      assert tail != [] ==> trace[|trace| - 1] == tail[|tail| - 1];
      assert forall i :: 0 <= i < |rounds| ==> rounds[i] == if i == 0 then rounds[0] else rounds[1..][i - 1];
    }
  }

  predicate PastClosedGate(trace: seq<Event>, rejectOnly: bool, i: int)
    requires 0 <= i < |trace|
  {
    trace[i].SignWith? && (rejectOnly || TerminalBefore(trace, i))
  }

  lemma ClosedGateNeedsApproval(request: SignRequest, screen: Screen, rounds: seq<Round>, i: nat)
    requires i < |Rounds(request, screen.lines, screen.rejectOnly, None, rounds)|
    requires PastClosedGate(Rounds(request, screen.lines, screen.rejectOnly, None, rounds), screen.rejectOnly, i)
    ensures !Honest(Rounds(request, screen.lines, screen.rejectOnly, None, rounds))
  {
    var trace := Rounds(request, screen.lines, screen.rejectOnly, None, rounds);
    SigningFollowsApproval(request, screen.lines, screen.rejectOnly, None, rounds, i);
    RejectOnlyExactly(request, screen.lines, screen.rejectOnly, None, rounds, i - 2);
    if TerminalBefore(trace, i) {
      var j :| 0 <= j < i && TerminalAt(trace, j);
      assert j != i - 1 && j != i - 2;
      assert TerminalBefore(trace, i - 2);
    }
    assert trace[i - 2].rejectOnly && trace[i - 2].approved;
  }

  /** Something is signed after the gate has closed (an undecodable or reverting request, or a terminal failure) exactly
      when the view approves a reject-only screen. */
  lemma ClosedGateIff(request: SignRequest, screen: Screen, rounds: seq<Round>)
    ensures var trace := Rounds(request, screen.lines, screen.rejectOnly, None, rounds);
      (exists i :: 0 <= i < |trace| && PastClosedGate(trace, screen.rejectOnly, i)) <==> !Honest(trace)
  {
    var trace := Rounds(request, screen.lines, screen.rejectOnly, None, rounds);
    if i: nat :| i < |trace| && PastClosedGate(trace, screen.rejectOnly, i) {
      ClosedGateNeedsApproval(request, screen, rounds, i);
    }
    if i: nat :| i < |trace| && trace[i].Show? && trace[i].rejectOnly && trace[i].approved {
      SigningFollowsApproval(request, screen.lines, screen.rejectOnly, None, rounds, i);
      RejectOnlyExactly(request, screen.lines, screen.rejectOnly, None, rounds, i);
      if !screen.rejectOnly {
        var j :| 0 <= j < i && TerminalAt(trace, j);
        assert TerminalBefore(trace, i + 2);
      }
      assert PastClosedGate(trace, screen.rejectOnly, i + 2);
    }
  }

  // ---- the whole ceremony ----

  lemma RefusalIsDanger(reason: string)
    ensures Refusal(reason).rejectOnly && HighestSeverity(Refusal(reason).lines) == Danger
  {
    HeadDanger(Refusal(reason).lines);
  }

  /** The opening screen of a request with no summary: a reject-only refusal, at danger. */
  lemma OpeningRefuses(k: Codec, request: SignRequest, answer: Result<SimulationResult>)
    requires Summary(k, request).Err?
    ensures Opening(k, request, answer) == Ok(Refusal(Summary(k, request).message))
    ensures Opening(k, request, answer).value.rejectOnly
    ensures HighestSeverity(Opening(k, request, answer).value.lines) == Danger
    ensures Line(Summary(k, request).message, Danger) in Opening(k, request, answer).value.lines
  {
    RefusalIsDanger(Summary(k, request).message);
    assert Refusal(Summary(k, request).message).lines[1] == Line(Summary(k, request).message, Danger);
  }

  /** A screen that keeps these lines first and is at least as alarming, reject-only exactly when `blocked`. */
  predicate Extends(screen: Screen, lines: seq<Line>, blocked: bool) {
    && lines <= screen.lines
    && Rank(HighestSeverity(screen.lines)) >= Rank(HighestSeverity(lines))
    && screen.rejectOnly == blocked
    && (blocked ==> HighestSeverity(screen.lines) == Danger)
  }

  lemma WithSimulationExactly(k: Codec, lines: seq<Line>, payload: Option<Payload>, answer: Result<SimulationResult>)
    ensures Extends(WithSimulation(k, lines, payload, answer), lines, payload.Some? && answer.Ok? && answer.value.Reverted?)
  {
    if payload.Some? {
      SimulationKeepsDanger(k, lines, if answer.Ok? then answer.value else Unsimulated, payload.value.chainId);
    }
  }

  /** Behind the decoded lines stand the rows of the simulation, on the payload's chain: of a rejected one, that there was
      none; without calls, nothing. */
  ghost predicate RowsBehind(k: Codec, lines: seq<Line>, shown: seq<Line>, payload: Option<Payload>, answer: Result<SimulationResult>) {
    && shown <= lines
    && (payload.None? ==> lines == shown)
    && (payload.Some? ==> RowsTell(k, payload.value.chainId, if answer.Ok? then answer.value else Unsimulated, lines[|shown|..]))
  }

  lemma WithSimulationTells(k: Codec, shown: seq<Line>, payload: Option<Payload>, answer: Result<SimulationResult>)
    ensures RowsBehind(k, WithSimulation(k, shown, payload, answer).lines, shown, payload, answer)
  {
    if payload.Some? {
      var result := if answer.Ok? then answer.value else Unsimulated;
      RowsTold(k, result, payload.value.chainId);
      var rows := SimulationDisplayLines(k, result, payload.value.chainId);
      assert (shown + rows)[|shown|..] == rows;
    }
  }

  /** A request has a summary exactly when it decodes and its screen is not blank. */
  lemma SummaryIff(k: Codec, request: SignRequest)
    ensures var consent := DecodeSignConsent(k, request);
      && (Summary(k, request).Ok? <==> consent.Ok? && FormatConsentDisplay(k, consent.value) != [])
      && (Summary(k, request).Ok? ==> Summary(k, request).value == FormatConsentDisplay(k, consent.value))
  {
  }

  /** No screen is ever blank. */
  lemma NoBlankScreen(k: Codec, request: SignRequest, answer: Result<SimulationResult>)
    requires Opening(k, request, answer).Ok?
    ensures Opening(k, request, answer).value.lines != []
  {
    if Summary(k, request).Ok? { OpeningTells(k, request, answer); } else { OpeningRefuses(k, request, answer); }
  }

  lemma OpeningTells(k: Codec, request: SignRequest, answer: Result<SimulationResult>)
    requires Summary(k, request).Ok? && SimulationPayload(k, request).Ok?
    ensures Opening(k, request, answer).Ok?
    ensures RowsBehind(k, Opening(k, request, answer).value.lines, Summary(k, request).value,
                       SimulationPayload(k, request).value, answer)
  {
    WithSimulationTells(k, Summary(k, request).value, SimulationPayload(k, request).value, answer);
  }

  /** Otherwise the decoded lines come first, simulation rows go behind them and never lower the severity, and the screen
      is reject-only exactly when the simulation reverted. */
  lemma OpeningExactly(k: Codec, request: SignRequest, answer: Result<SimulationResult>)
    requires Summary(k, request).Ok? && SimulationPayload(k, request).Ok?
    ensures Opening(k, request, answer).Ok?
    ensures Extends(Opening(k, request, answer).value, Summary(k, request).value,
                    SimulationPayload(k, request).value.Some? && answer.Ok? && answer.value.Reverted?)
  {
    WithSimulationExactly(k, Summary(k, request).value, SimulationPayload(k, request).value, answer);
  }

  /** With a view that keeps its contract, what is signed was just approved, on a screen that was not reject-only, with
      no terminal failure before. */
  lemma GateHolds(request: SignRequest, screen: Screen, rounds: seq<Round>, i: nat)
    requires var trace := Rounds(request, screen.lines, screen.rejectOnly, None, rounds);
      Honest(trace) && i < |trace| && trace[i].SignWith?
    ensures var trace := Rounds(request, screen.lines, screen.rejectOnly, None, rounds);
      && trace[i].request == request
      && i >= 2 && trace[i - 2].Show? && trace[i - 2].approved && trace[i - 1] == WaitingForPasskey
      && trace[i - 2].lines == screen.lines
      && !screen.rejectOnly && !TerminalBefore(trace, i)
  {
    SigningFollowsApproval(request, screen.lines, screen.rejectOnly, None, rounds, i);
    SigningFollowsApproval(request, screen.lines, screen.rejectOnly, None, rounds, i - 2);
    ClosedGateIff(request, screen, rounds);
    assert !PastClosedGate(Rounds(request, screen.lines, screen.rejectOnly, None, rounds), screen.rejectOnly, i);
  }

  /** Consent gates signing: with such a view, whatever is signed is this very request, decoded, not reverting, and
      approved just before on a screen that begins with its decoded lines. */
  lemma ConsentGatesSigning(k: Codec, request: SignRequest, answer: Result<SimulationResult>, screen: Screen,
                            rounds: seq<Round>, trace: seq<Event>, i: nat)
    requires Opening(k, request, answer) == Ok(screen)
    requires trace == Rounds(request, screen.lines, screen.rejectOnly, None, rounds)
    requires Honest(trace) && i < |trace| && trace[i].SignWith?
    ensures trace[i].request == request
    ensures i >= 2 && trace[i - 2].Show? && trace[i - 2].approved && trace[i - 1] == WaitingForPasskey
    ensures Summary(k, request).Ok? && Summary(k, request).value <= trace[i - 2].lines
    ensures !(SimulationPayload(k, request).value.Some? && answer.Ok? && answer.value.Reverted?)
    ensures !TerminalBefore(trace, i)
  {
    GateHolds(request, screen, rounds, i);
    if Summary(k, request).Ok? { OpeningExactly(k, request, answer); } else { OpeningRefuses(k, request, answer); }
  }

  /** An invalid address that the decoder does not read but the simulation payload does. */
  predicate UnreadAddressInvalid(k: Codec, request: SignRequest) {
    match request
    case SignUserOp(op, _, _, _) => k.checksum(op.sender).None?
    case SignTypedData(td) => BatchAddressInvalid(k, td)
    case SignSponsored(td, _) => BatchAddressInvalid(k, td)
    case _ => false
  }

  predicate BatchAddressInvalid(k: Codec, td: TypedData) {
    IsAvokBatch(MessageOf(td)) && td.domain.verifyingContract.Some?
    && (k.checksum(td.domain.verifyingContract.value).None? || !AllTargets(k, ListOf(MessageOf(td), "feeCalls")))
  }

  lemma UserTargetsValid(k: Codec, td: TypedData)
    requires DecodeTypedData(k, td).Ok? && IsAvokBatch(MessageOf(td))
    ensures AllTargets(k, ListOf(MessageOf(td), "userCalls"))
  {
    var entries := ListOf(MessageOf(td), "userCalls");
    CallsOfPointwise(entries);
    var calls := CallsOf(entries).value;
    DecodeCallsPointwise(k, td.domain.chainId.value, calls);
    forall i | 0 <= i < |entries| ensures EntryTarget(k, entries[i]).Some? {
      assert CallOf(entries[i]) == Some(calls[i]) && k.checksum(calls[i].to).Some?;
    }
  }

  /** What is simulated for a batch is what is shown: every fee entry and then every user call, those with the target and
      the data of their lines, in order. */
  lemma BatchSimulatedIsShown(k: Codec, td: TypedData)
    requires DecodeTypedData(k, td).Ok? && DecodeTypedData(k, td).value.BatchConsent?
    requires BatchPayload(k, td).Ok? && BatchPayload(k, td).value.Some?
    ensures BatchPayload(k, td).value.value.chainId == DecodeTypedData(k, td).value.view.chainId
    ensures SimulatesLines(BatchPayload(k, td).value.value.calls, |ListOf(MessageOf(td), "feeCalls")|,
                           DecodeTypedData(k, td).value.view.calls)
  {
    UserEntriesShown(k, td);
    EntryCallsShown(k, ListOf(MessageOf(td), "feeCalls"), ListOf(MessageOf(td), "userCalls"), DecodeTypedData(k, td).value.view.calls);
  }

  /** Behind the first `fees` calls there is one for each line, with its target and its data. */
  predicate SimulatesLines(calls: seq<PayloadCall>, fees: nat, lines: seq<ConsentLine>) {
    |calls| == fees + |lines|
    && forall i :: 0 <= i < |lines| ==> calls[fees + i].to == lines[i].to && calls[fees + i].data == Some(Scalar(lines[i].raw))
  }

  lemma EntryCallsShown(k: Codec, fees: seq<Value>, entries: seq<Value>, lines: seq<ConsentLine>)
    requires AllTargets(k, fees + entries) && |lines| == |entries|
    requires forall i :: 0 <= i < |entries| ==> EntryShownAs(k, entries[i], lines[i])
    ensures SimulatesLines(EntryCalls(k, fees + entries), |fees|, lines)
  {
    var calls := EntryCalls(k, fees + entries);
    forall i | 0 <= i < |lines|
      ensures calls[|fees| + i].to == lines[i].to && calls[|fees| + i].data == Some(Scalar(lines[i].raw))
    {
      assert (fees + entries)[|fees| + i] == entries[i] && EntryShownAs(k, entries[i], lines[i]);
    }
  }

  predicate EntryShownAs(k: Codec, entry: Value, line: ConsentLine) {
    entry.Object? && EntryTarget(k, entry) == Some(line.to) && Get(entry.entries, "data") == Some(Scalar(line.raw))
  }

  lemma UserEntriesShown(k: Codec, td: TypedData)
    requires DecodeTypedData(k, td).Ok? && DecodeTypedData(k, td).value.BatchConsent?
    ensures var entries := ListOf(MessageOf(td), "userCalls");
      var shown := DecodeTypedData(k, td).value.view;
      && |shown.calls| == |entries|
      && forall i :: 0 <= i < |entries| ==> EntryShownAs(k, entries[i], shown.calls[i])
  {
    var entries := ListOf(MessageOf(td), "userCalls");
    CallsOfPointwise(entries);
    var calls := CallsOf(entries).value;
    DecodeCallsPointwise(k, td.domain.chainId.value, calls);
    forall i | 0 <= i < |entries| ensures EntryShownAs(k, entries[i], DecodeTypedData(k, td).value.view.calls[i]) {
      EntryIsCall(k, td.domain.chainId.value, entries[i], calls[i]);
    }
  }

  lemma EntryIsCall(k: Codec, chainId: int, entry: Value, call: Call)
    requires CallOf(entry) == Some(call) && DecodeCall(k, chainId, call).Ok?
    ensures EntryShownAs(k, entry, DecodeCall(k, chainId, call).value)
  {
  }

  /** The same of a transaction: its outer call is simulated as it will be sent, on its chain, from the wallet. */
  lemma TxSimulatedIsSent(k: Codec, tx: Tx)
    requires DecodeTxConsent(k, tx).Ok? && TxPayload(k, tx).Ok? && TxPayload(k, tx).value.Some?
    ensures var sent := OuterCall(k, tx).value;
      TxPayload(k, tx).value.value
        == Payload(ChainOf(tx), sent.to, [PayloadCall(sent.to, Some(Scalar(IntToString(sent.value))), Some(Scalar(sent.data)))])
  {
  }

  /** The request calls something on chain: a transaction with a target, a user operation, or a wallet's batch; its chain
      is known. */
  predicate CallsSomething(request: SignRequest) {
    match request
    case SignTransaction(tx) => HasTarget(tx)
    case SignSend(tx, _) => HasTarget(tx)
    case SignUserOp(_, _, _, _) => true
    case SignTypedData(td) => IsWalletBatch(td)
    case SignSponsored(td, _) => IsWalletBatch(td)
    case _ => false
  }

  predicate HasTarget(tx: Tx) { tx.to.Some? && tx.to.value != "" && tx.chainId.Some? }

  predicate IsWalletBatch(td: TypedData) {
    IsAvokBatch(MessageOf(td)) && td.domain.verifyingContract.Some? && td.domain.chainId.Some?
  }

  /** Something is simulated exactly for such a request. */
  lemma SimulatedIff(k: Codec, request: SignRequest)
    requires SimulationPayload(k, request).Ok?
    ensures SimulationPayload(k, request).value.Some? <==> CallsSomething(request)
  {
  }

  /** The call of a batch entry: its target in checksummed text, its value and data as they stand. */
  predicate EntryRuns(k: Codec, entry: Value, c: PayloadCall) {
    && entry.Object? && Get(entry.entries, "to").Some? && Get(entry.entries, "to").value.Scalar?
    && k.checksum(Get(entry.entries, "to").value.text) == Some(c.to)
    && c.value == Get(entry.entries, "value") && c.data == Get(entry.entries, "data")
  }

  predicate EntriesRun(k: Codec, entries: seq<Value>, calls: seq<PayloadCall>) {
    |entries| == |calls| && forall i :: 0 <= i < |entries| ==> EntryRuns(k, entries[i], calls[i])
  }

  /** What runs is what this signature covers, on its chain and from its account: the transaction's own call, the
      operation's calldata sent to its sender, or every fee entry and then every user call of the batch. */
  predicate RunsWhatIsSigned(k: Codec, p: Payload, s: Signature) {
    match s
    case TxSignature(tx) =>
      && tx.chainId == Some(p.chainId) && tx.to.Some? && k.checksum(tx.to.value) == Some(p.account)
      && |p.calls| == 1 && p.calls[0].to == p.account
      && p.calls[0].value == Some(Scalar(IntToString(if tx.value.Some? then tx.value.value else 0)))
      && p.calls[0].data == Some(Scalar(if tx.data.Some? then tx.data.value else "0x"))
    case UserOpSignature(op, chainId, _, _) =>
      && p.chainId == chainId && k.checksum(op.sender) == Some(p.account)
      && p.calls == [PayloadCall(p.account, Some(Scalar("0")), Some(Scalar(op.callData)))]
    case TypedDataSignature(td) =>
      && td.domain.chainId == Some(p.chainId)
      && td.domain.verifyingContract.Some? && k.checksum(td.domain.verifyingContract.value) == Some(p.account)
      && EntriesRun(k, ListOf(MessageOf(td), "feeCalls") + ListOf(MessageOf(td), "userCalls"), p.calls)
    case _ => false
  }

  lemma EntryCallsRun(k: Codec, entries: seq<Value>)
    requires AllTargets(k, entries)
    ensures EntriesRun(k, entries, EntryCalls(k, entries))
  {
    forall i | 0 <= i < |entries| ensures EntryRuns(k, entries[i], EntryCalls(k, entries)[i]) {
      assert EntryTarget(k, entries[i]).Some?;
    }
  }

  lemma BatchRunsAsSigned(k: Codec, td: TypedData)
    requires BatchPayload(k, td).Ok? && BatchPayload(k, td).value.Some?
    ensures RunsWhatIsSigned(k, BatchPayload(k, td).value.value, TypedDataSignature(td))
  {
    EntryCallsRun(k, ListOf(MessageOf(td), "feeCalls") + ListOf(MessageOf(td), "userCalls"));
  }

  /** What is simulated is what is then signed: the last signature covers the very calls that were run. */
  lemma SimulatedIsSigned(k: Codec, request: SignRequest, state: WalletState)
    requires SimulationPayload(k, request).Ok? && SimulationPayload(k, request).value.Some?
    requires PerformSign.PerformSign(request, state).Ok?
    ensures var signed := PerformSign.PerformSign(request, state).value;
      signed != [] && RunsWhatIsSigned(k, SimulationPayload(k, request).value.value, signed[|signed| - 1])
  {
    match request
    case SignTypedData(td) => BatchRunsAsSigned(k, td);
    case SignSponsored(td, _) => BatchRunsAsSigned(k, td);
    case _ =>
  }

  lemma BatchPayloadThrowsIff(k: Codec, td: TypedData)
    requires DecodeTypedData(k, td).Ok?
    ensures BatchPayload(k, td).Err? <==> BatchAddressInvalid(k, td)
  {
    if IsAvokBatch(MessageOf(td)) {
      UserTargetsValid(k, td);
      TargetsJoin(k, ListOf(MessageOf(td), "feeCalls"), ListOf(MessageOf(td), "userCalls"));
    }
  }

  lemma TargetsJoin(k: Codec, a: seq<Value>, b: seq<Value>)
    ensures AllTargets(k, a + b) <==> AllTargets(k, a) && AllTargets(k, b)
  {
    if AllTargets(k, a + b) {
      assert forall i :: 0 <= i < |a| ==> a[i] == (a + b)[i];
      assert forall i :: 0 <= i < |b| ==> b[i] == (a + b)[|a| + i];
    }
  }

  lemma TxPayloadNeverThrows(k: Codec, tx: Tx)
    requires DecodeTxConsent(k, tx).Ok?
    ensures TxPayload(k, tx).Ok?
  {
  }

  lemma PayloadThrowsIff(k: Codec, request: SignRequest)
    requires DecodeSignConsent(k, request).Ok?
    ensures SimulationPayload(k, request).Err? <==> UnreadAddressInvalid(k, request)
  {
    match request
    case SignTransaction(tx) => TxPayloadNeverThrows(k, tx);
    case SignSend(tx, _) => TxPayloadNeverThrows(k, tx);
    case SignTypedData(td) => BatchPayloadThrowsIff(k, td);
    case SignSponsored(td, _) => BatchPayloadThrowsIff(k, td);
    case _ =>
  }

  /** A request that decodes never gets a screen, nor any reply, exactly when it carries an invalid address that only
      the simulation payload reads: a user operation's sender, a batch's verifying contract, or a fee call. */
  lemma NeverOpensIff(k: Codec, request: SignRequest, answer: Result<SimulationResult>)
    requires Summary(k, request).Ok?
    ensures Opening(k, request, answer).Err? <==> UnreadAddressInvalid(k, request)
  {
    PayloadThrowsIff(k, request);
  }
}
