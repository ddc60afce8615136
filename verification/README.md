# Avok, verified model

A Dafny model of the hard core of the Avok passkey-wallet SDK (`packages/core/src`), with proofs about it. The hard
properties of this code sit in a few small state machines and in the agreement between what is built, what is shown
and what is signed; those are what is modelled here.

| module | what it models |
|---|---|
| `WebChannel`, `AuthPopup`, `PopupSession`, `Messages` | the two-party popup protocol over `postMessage` (HTML Standard, section 9.3): the opener and the popup page as classes, their functional steps, and one step relation with the opener's task queue, both message queues and an environment that injects foreign messages |
| `SigningCeremony` | the popup's decode, simulate, consent, sign and retry loop, as a trace |
| `Requests`, `Consent`, `ConsentDisplay`, `Danger`, `TypedDataFields`, `TypedDataScreen`, `SimpleScreens`, `CallScreens`, `PerformSign` | requests, their decoding into a consent, the lines and severities of the screen, and what is signed |
| `SendBuild`, `Fees` | resolving a batch, building the native-gas and the sponsored request, fee quotes and ceilings |
| `NonceAllocator` | the promise-chain nonce allocator under concurrent calls, failing storage and reloads; the random allocator's fold |
| `Amount`, `Base64Url`, `RedirectProtocol`, `Deltas`, `Text` | exact money text, base64url, redirect framing, simulation logs folded into deltas |
| `KeyFunnel` | derive, use, wipe on the heap, with the aliasing of key buffers; guardian approvals |
| `RecoverCeremony` | the recovery screen under any interleaving of its asynchronous calls |
| `Provider`, `Client` | EIP-1193 events derived from the client's notifications |
| `WaitLoop` | waiting for a receipt |

Code that works by assignment is a class or a method with loops, proved equal to a function of its old state; the
properties are lemmas about those functions. Chains, clocks, storage, the bundler, the user and the authenticator are
parameters: every answer and every failure is allowed. viem's functions are the fields of `Requests.Codec`, about which
only `Requests.RoundTrips` is assumed, and only where a lemma asks for it: a batch that encodes has valid addresses and
decodes, out of the `execute` form the wallet itself produces, to the same calls with checksummed addresses and plain
hex (`Requests.RoundTripsCanHold` shows that this can be met with any calls encoded). For keys, `KeyFunnel.ZeroKeyRefused` (secp256k1 has no key zero) is assumed only for the inertness of a wiped
account.

## Where the code is narrower than a first reading

Each of these is a lemma that states exactly when the wider property holds, or an input for which it does not.

- A request that decodes can still get neither screen nor reply: the simulation payload is computed outside every
  handler, and throws exactly when an address only it reads is invalid (`SigningCeremony.NeverOpensIff`).
- For a bare EIP-7702 authorization the screen reads `address` first and the account signs `contractAddress` first;
  they name the same delegate exactly when the request does not give two different ones
  (`PerformSign.ShownDelegateIff`). A composite request's screen reads only `address`: it shows the delegate that is
  signed exactly when `address` is given and `contractAddress` is absent or the same
  (`PerformSign.CompositeDelegationIff`), and with two different ones it shows the one and installs the other
  (`PerformSign.CompositeShowsAnother`).
- Of a batch's fee calls only the last is shown (`Consent.OnlyLastFeeCallShown`), and its line is never at danger
  (`PerformSign.FeeLineNeverDanger`).
- Labels of typed-data fields are unique for names without the label's own separators, and a dotted name can collide
  (`TypedDataFields.DottedKeyCollides`).
- Deltas sum to the balance change exactly when no positive amount of the asset goes from the account to itself
  (`Deltas.TotalsExactIff`). Approvals are listed whoever gave them, not only the account
  (`Deltas.ApprovalsOfAnyOwner`).
- The fee ceiling survives any n blocks exactly when n of the largest raises do not double the base fee
  (`Fees.BlocksIff`): any five from a base fee of 5 wei, but not any six from 264 wei on (`Fees.FiveBlocksIff`,
  `Fees.SixBlocksTooMany`).
- A listener that throws leaves the provider's remembered state behind what it has already said. Replayed and remembered
  state agree throughout a run exactly when no notification is cut short so (`Provider.TogetherThroughoutIff`);
  otherwise a connect can be repeated and a disconnect lost (`Provider.ThrowRepeatsConnect`,
  `Provider.ThrowLosesDisconnect`).
- The recovery screen is coherent but not always of the wallet asked for last: a lookup, a mint or an approval still
  under way can bring an older wallet back. It stays with the latest exactly when everything under way is of that same
  wallet (`RecoverCeremony.LatestIff`), in particular when nothing is (`RecoverCeremony.IdleShowsLatest`). An imported
  guardian key is not looked up in the roster (`RecoverCeremony.RosterCheckedIff`).
- An opener with an opaque origin is never served (`PopupSession.OpaqueOpenerIsNeverServed`).
- Without an advancing clock there is no bound on polling (`WaitLoop.FrozenClockNeverEnds`).

## Model

| member | source | states |
|---|---|---|
| PopupSession.NoLostRequest | packages/core/src/channel/channels/web.ts:87-133 | in every reachable state in which the popup waits and the opener is unsettled, a `ready` or the request is in flight |
| PopupSession.WaitingEnds | packages/core/src/auth-popup/ceremony.ts:297-330 | from every such state, running what is already queued settles the opener or drives its request |
| PopupSession.OpaqueOpenerIsNeverServed | packages/core/src/auth-popup/ceremony.ts:297-302 | the condition on the app's origin is exact |
| PopupSession.Agreement | packages/core/src/channel/channels/web.ts:73-103 | at most one request is driven, it is this one, and the opener resolves with the popup's single reply to it, of its kind |
| PopupSession.PostsAreTargeted | packages/core/src/auth-popup/ceremony.ts:314-327 | only `ready` goes to "*"; all else names the opener's origin |
| PopupSession.OpenerPostsItsRequest | packages/core/src/channel/channels/web.ts:94-97 | the opener posts nothing but its request, and only to the auth origin |
| PopupSession.SettledOnce | packages/core/src/channel/channels/web.ts:59-108 | the promise is settled by at most one call, and the outcome is that call's |
| PopupSession.SettledIsFinal | packages/core/src/channel/channels/web.ts:63-71 | after settling nothing that happens changes the opener |
| PopupSession.ReplyBeatsClose | packages/core/src/channel/channels/web.ts:110-127 | once the popup has replied, the promise resolves with that reply unless the timeout came first, under every interleaving of polls, closes and deferred rejects |
| PopupSession.ReplyEnds | packages/core/src/channel/channels/web.ts:99-103 | once the popup has replied, the tasks then queued settle the promise |
| PopupSession.CloseEnds | packages/core/src/channel/channels/web.ts:110-127 | a closed popup always ends the session: one more poll and the tasks then queued settle the promise |
| PopupSession.TimeoutEnds | packages/core/src/channel/channels/web.ts:105-108 | the timeout always ends the session |
| PopupSession.RejectionSaysWhy | packages/core/src/channel/channels/web.ts:105-127 | a rejection says why: closed when a deferred reject settles the promise, timed out when the timeout does; a poll alone rejects nothing |
| PopupSession.NoNonceNoReply | packages/core/src/auth-popup/ceremony.ts:264-295 | an authorize request without a nonce is never answered |
| PopupSession.DrivenCanReply | packages/core/src/auth-popup/ceremony.ts:264-330 | any other driven request can be answered, once, while the popup is open |
| WebChannel.Session.constructor | packages/core/src/channel/channels/web.ts:59-134 | opening arms timer, poll and listener and posts the request eagerly to the auth origin |
| WebChannel.Session.RunCleanup | packages/core/src/channel/channels/web.ts:63-71 | tears everything down, once |
| WebChannel.Session.HandleMessage | packages/core/src/channel/channels/web.ts:73-103 | source, origin and shape checks, the `ready` re-send, and resolving |
| WebChannel.Session.HandleTimeout | packages/core/src/channel/channels/web.ts:105-108 | the timeout cleans up and rejects |
| WebChannel.Session.HandlePoll | packages/core/src/channel/channels/web.ts:118-127 | a poll that sees the popup closed stops polling and defers the reject |
| WebChannel.Session.HandleDeferred | packages/core/src/channel/channels/web.ts:121-125 | the deferred reject acts only when unsettled |
| AuthPopup.Page.constructor | packages/core/src/auth-popup/ceremony.ts:290-330 | attaches the listener and posts `ready` to any origin |
| AuthPopup.Page.HandleMessage | packages/core/src/auth-popup/ceremony.ts:297-322 | pins the first origin, drops foreign and duplicate messages, drives the first request |
| AuthPopup.Page.SendReply | packages/core/src/auth-popup/ceremony.ts:314-320 | replies to the pinned origin, and closes after a signing reply |
| AuthPopup.FirstOriginRules | packages/core/src/auth-popup/ceremony.ts:297-322 | whatever arrives, the page pins the first origin that speaks through its opener and drives the first request from there |
| AuthPopup.ReplyOnce | packages/core/src/auth-popup/ceremony.ts:314-320 | one reply, to the pinned origin, in the request's kind; a signing page closes after it and an authorizing one stays |
| SigningCeremony.RunSign | packages/core/src/auth-popup/ceremony.ts:237-262 | the loop's trace of shows, gestures, signings and replies is that of the specification, for every script of decisions and outcomes |
| SigningCeremony.SigningFollowsApproval | packages/core/src/auth-popup/ceremony.ts:240-250 | every signing directly follows its own approval of the unchanged lines, for the same request |
| SigningCeremony.RejectOnlyExactly | packages/core/src/auth-popup/ceremony.ts:251-261 | a screen is reject-only exactly when it opened so or a terminal failure came before, and shows the last failure |
| SigningCeremony.TerminalIff | packages/core/src/auth-popup/ceremony.ts:175-179 | a failure is terminal exactly for a SecurityError or the words "relying party id" anywhere, in any letter case |
| SigningCeremony.OneReply | packages/core/src/auth-popup/ceremony.ts:241-250 | a reply is the last event, refuses exactly after a rejection and delivers exactly what was just signed |
| SigningCeremony.FinishedIff | packages/core/src/auth-popup/ceremony.ts:240-262 | the run ends in a reply unless every round was an approval whose signing failed |
| SigningCeremony.ClosedGateIff | packages/core/src/auth-popup/ceremony.ts:84-96 | something is signed past the gate exactly when the view approves a reject-only screen |
| SigningCeremony.GateHolds | packages/core/src/auth-popup/ceremony.ts:237-262 | with a view that keeps its contract nothing is signed on a reject-only screen or after a terminal failure |
| SigningCeremony.ConsentGatesSigning | packages/core/src/auth-popup/ceremony.ts:193-262 | whatever is signed was decoded, did not revert, and was approved just before on a screen that begins with its decoded lines |
| SigningCeremony.OpeningRefuses | packages/core/src/auth-popup/ceremony.ts:200-216 | a request with no summary opens on a reject-only refusal at danger that says why |
| SigningCeremony.OpeningExactly | packages/core/src/auth-popup/ceremony.ts:218-240 | simulation rows go behind the decoded lines, never lower the severity, and a revert alone makes the screen reject-only |
| SigningCeremony.NoBlankScreen | packages/core/src/auth-popup/ceremony.ts:200-213 | no screen is ever blank |
| SigningCeremony.OpeningTells | packages/core/src/auth-popup/ceremony.ts:219-237 | behind the decoded lines stand the rows of the simulation, on the payload's chain: every asset change and approval, the revert and its reason, or that there was no simulation; without calls, nothing |
| SigningCeremony.NeverOpensIff | packages/core/src/auth-popup/sign/simulate-payload.ts:35-92 | a decodable request never opens exactly when an address that only the payload reads is invalid |
| SigningCeremony.BatchSimulatedIsShown | packages/core/src/auth-popup/sign/simulate-payload.ts:49-64 | a batch is simulated with every fee entry and then every user call shown, same target and data, in order |
| SigningCeremony.TxSimulatedIsSent | packages/core/src/auth-popup/sign/simulate-payload.ts:35-46 | a transaction is simulated as its own outer call, on its chain |
| SigningCeremony.SimulatedIff | packages/core/src/auth-popup/sign/simulate-payload.ts:66-94 | something is simulated exactly for a transaction with target and chain, a user operation, or a wallet's batch with contract and chain |
| SigningCeremony.SimulatedIsSigned | packages/core/src/auth-popup/sign/simulate-payload.ts:35-94 | what is simulated is what is then signed: account, chain, targets, values and data are those of the transaction, the operation or the batch that the signature covers |
| SendBuild.LeanResolve | packages/core/src/client/resolve.ts:34-97 | no fee calls, user calls unchanged, delegation exactly when not delegated and only to a deployed implementation, a native estimate only on the native rail, and exactly when it throws |
| SendBuild.DelegatedIff | packages/core/src/evm/resolve.ts:3-8 | a wallet is delegated exactly when its code is ef0100 and then the implementation, in any letter case |
| SendBuild.BuildUserOp | packages/core/src/evm/userop.ts:40-62 | the operation carries the encoded batch and the optional fields given |
| SendBuild.PrepareSponsored | packages/core/src/client/sponsored-userop.ts:55-140 | whatever bundler and paymaster answer, the operation carries the user's calls; they only fill gas limits and paymaster fields |
| SendBuild.Send | packages/core/src/client/evm.ts:308-398 | which request goes out on which rail, that it is the batch's own (encoded calls, sender, chain, delegation), and that a reused operation goes out as it is |
| SendBuild.Simulate | packages/core/src/client/evm.ts:285-303 | a simulation carries an operation exactly on the sponsored rail, of its own batch, and shows that operation's fee |
| CallScreens.PlainTxIsShown | packages/core/src/auth-popup/sign/consent.ts:373-455 | a transaction that is no batch of the wallet's own is shown as its own call, on its chain, with the maximum fee when gas and price are given |
| CallScreens.BatchTxIsShown | packages/core/src/auth-popup/sign/consent.ts:373-455 | a transaction holding a batch is shown as its calls, in order, each telling its call, with the maximum fee |
| CallScreens.UserOpIsShown | packages/core/src/auth-popup/sign/consent.ts:525-556 | an operation is shown as the calls of its batch, or as its calldata sent to its sender |
| CallScreens.TypedBatchIsShown | packages/core/src/auth-popup/sign/consent.ts:254-292 | a typed-data batch is shown as its user calls, in order, on the domain's chain, with its last fee call |
| CallScreens.AuthorizationIsShown | packages/core/src/auth-popup/sign/consent-display.ts:165-166 | a bare authorization is one line at danger with delegate and chain; exactly when it is refused |
| CallScreens.DelegationNamesChain | packages/core/src/auth-popup/sign/consent-display.ts:170-194 | the delegation line of a send or an operation names delegate and chain |
| SendBuild.SentIsShown | packages/core/src/client/evm.ts:308-398 | the request `send` builds for a batch has a screen of exactly the user's calls, plus chain, the batch's delegation and, natively, the maximum fee |
| SendBuild.NativeRequestIs | packages/core/src/client/evm.ts:352-396 | the native transaction field by field: self-call without value, signer's nonce, twice the base fee plus the tip, twice the estimated gas, authorization over the next nonce |
| SendBuild.BatchTxDecodes | packages/core/src/auth-popup/sign/consent.ts:373-455 | a transaction holding the wallet's own batch decodes to one line per call, in order |
| SendBuild.NativeBuiltIsShown | packages/core/src/client/evm.ts:357-396 | the native-gas screen has exactly one line per built call, in order, each telling its call, and the maximum fee gas x maxFeePerGas, and nothing else but chain and delegation |
| SendBuild.UserOpBuiltIsShown | packages/core/src/auth-popup/sign/consent.ts:525-556 | the same for the sponsored operation |
| SendBuild.NormalShownAlike | packages/core/src/evm/sim-methods.ts:29-34 | encoding does not change how a call in plain hex is shown |
| SendBuild.AuthorizationFollowsTx | packages/core/src/client/evm.ts:374-396 | the authorization signed with a native send is embedded in it, names its chain and the resolved implementation, and is over the next nonce |
| Consent.DescribeCall | packages/core/src/auth-popup/sign/consent.ts:92-193 | the call decoder as it fills its record equals the specification |
| Consent.DecodeCallsPointwise | packages/core/src/auth-popup/sign/consent.ts:253-288 | calls decode exactly when all targets are valid, each to its own line |
| Consent.ViewIsDescribedCalls | packages/core/src/auth-popup/sign/consent.ts:457-556 | any request shown as calls is shown one line per call, in order, on its chain, each with its call's target, value and data |
| Consent.OnlyLastFeeCallShown | packages/core/src/auth-popup/sign/consent.ts:267-272 | batches that agree on the user calls and on the last fee call are shown alike, with that call as the fee |
| ConsentDisplay.BuildEvmViewLines | packages/core/src/auth-popup/sign/consent-display.ts:127-133 | the list built by pushing is the specified one |
| ConsentDisplay.HighestIsMaximum | packages/core/src/auth-popup/sign/consent-display.ts:24-29 | the fold is the maximum severity of the lines |
| ConsentDisplay.AppendingNeverLowers | packages/core/src/auth-popup/sign/consent-display.ts:24-29 | appending lines gives the worse of the two severities |
| ConsentDisplay.CallLineDanger | packages/core/src/auth-popup/sign/consent-display.ts:56-107 | a call's line is at danger exactly when it is an approve or increaseAllowance of at least 2^159 or a setApprovalForAll(true) |
| ConsentDisplay.CautionIff | packages/core/src/auth-popup/sign/consent-display.ts:56-107 | any other line is at caution exactly when its token has no symbol here, or the call is not recognised |
| ConsentDisplay.UnlimitedSaid | packages/core/src/auth-popup/sign/consent-display.ts:65-85 | an approve or increaseAllowance of at least 2^159 says UNLIMITED |
| ConsentDisplay.CallLineDescribes | packages/core/src/auth-popup/sign/consent-display.ts:56-107 | a line names the kind, target and counterparty of its call, and unrecognised calldata in full |
| ConsentDisplay.TokenNamed | packages/core/src/auth-popup/sign/consent-display.ts:56-107 | a known token is named with its amount in its decimals, an unknown one by address with base units |
| ConsentDisplay.NativeNamed | packages/core/src/auth-popup/sign/consent-display.ts:98-107 | a plain transfer names its value in native units, and the chain's own symbol |
| ConsentDisplay.CallLineTells | packages/core/src/auth-popup/sign/consent-display.ts:56-107 | all of these together for every decoded call |
| ConsentDisplay.MaxFeeNamed | packages/core/src/auth-popup/sign/consent-display.ts:119-125 | the fee ceiling is named in native units, and the chain's own symbol |
| ConsentDisplay.FeeNamed | packages/core/src/auth-popup/sign/consent-display.ts:110-117 | a fee line names its amount, and is at caution exactly for an unknown token |
| ConsentDisplay.GenericDangerIff | packages/core/src/auth-popup/sign/consent-display.ts:150-232 | a generic typed-data screen is at danger exactly for a dangerous primary type or a field of at least 2^159 |
| ConsentDisplay.GenericDangerInLeaves | packages/core/src/auth-popup/sign/consent.ts:220-251 | the same of a view flattened from a message: a leaf at any depth |
| TypedDataScreen.GenericDecodes | packages/core/src/auth-popup/sign/consent.ts:462-483 | typed data that is not a batch is described exactly when it names a chain |
| TypedDataScreen.ScreenIsHeadAndLeaves | packages/core/src/auth-popup/sign/consent-display.ts:207-226 | its screen is a head and then one line for each leaf of the message, in order |
| TypedDataScreen.EveryLeafIsOnScreen | packages/core/src/auth-popup/sign/consent.ts:220-251 | whatever stands at any path of the message has its line on the screen |
| TypedDataScreen.BareMessageIsShown | packages/core/src/auth-popup/sign/consent.ts:220-232 | a message that is no structure at all is shown as its value |
| TypedDataScreen.EveryFieldLineIsALeaf | packages/core/src/auth-popup/sign/consent.ts:220-251 | the lines behind the head are those of the leaves, as many and in order |
| TypedDataScreen.LeavesAreApart | packages/core/src/auth-popup/sign/consent.ts:220-232 | each leaf stands in the message at a path of its own, whatever the names |
| TypedDataScreen.ScreenDangerIff | packages/core/src/auth-popup/sign/consent-display.ts:207-226 | the screen is at danger exactly for one of the five dangerous types or an amount of at least 2^159 standing anywhere in the message |
| TypedDataScreen.HeadIsOfTheRequest | packages/core/src/auth-popup/sign/consent-display.ts:214-221 | the head names the request's own type, chain, contract and name |
| TypedDataScreen.ChainNamed | packages/core/src/auth-popup/sign/consent-display.ts:45-50 | a chain's label names its id |
| SimpleScreens.MessageIsOnScreen | packages/core/src/auth-popup/sign/consent-display.ts:152-153 | a message is shown in full, last |
| SimpleScreens.SiweFieldIsOnScreen | packages/core/src/auth-popup/sign/consent-display.ts:195-206 | every parameter of a sign-in has a line that names it |
| SimpleScreens.ResourceIsOnScreen | packages/core/src/auth-popup/sign/consent.ts:485-504 | every resource that is one line of text has that line, through the joining and splitting |
| ConsentDisplay.DeltaTold | packages/core/src/auth-popup/sign/consent-display.ts:238-255 | a simulated row says which way the asset goes, how much, and which; it is at caution exactly for an unknown token |
| ConsentDisplay.GrantTold | packages/core/src/auth-popup/sign/consent-display.ts:257-269 | a simulated approval names spender, token or amount, whether it was granted or revoked, and that it is unlimited |
| ConsentDisplay.RowsTold | packages/core/src/auth-popup/sign/consent-display.ts:278-289 | the rows of a simulation are one for every asset change and then every approval, in order; or the revert with its reason, at danger; or that there was none, at caution |
| ConsentDisplay.SimulatedLogsDangerIff | packages/core/src/auth-popup/sign/consent-display.ts:278-289 | the rows of simulated logs are at danger exactly when a log grants at least 2^159 or a whole collection |
| Danger.UnlimitedExactly | packages/core/src/auth-popup/sign/danger.ts:30-48 | on printed amounts the textual test is exactly the numeric threshold |
| Danger.HexUnlimitedExactly | packages/core/src/auth-popup/sign/danger.ts:40-48 | the same of an amount written in hexadecimal, in either letter case |
| PerformSign.SignedIsShown | packages/core/src/auth-popup/sign/perform-sign.ts:35-143 | whatever is signed decodes, on its own, to the very view that was on the screen |
| PerformSign.SignsTheRequest | packages/core/src/auth-popup/sign/perform-sign.ts:35-143 | field by field: the carried authorization if any, then one signature over the request's own message, typed data, sign-in under the wallet's address, transaction (but for embedding the authorization) or operation, wrapped exactly for a roster device |
| PerformSign.RefusedIff | packages/core/src/auth-popup/sign/perform-sign.ts:35-120 | exactly which requests are refused for which device |
| PerformSign.AuthorizationSigned | packages/core/src/auth-popup/sign/perform-sign.ts:57-143 | an authorization is signed only when carried, first, and (but for signSponsored) only by a founding device |
| PerformSign.DelegationIsDanger | packages/core/src/auth-popup/sign/consent-display.ts:150-195 | whenever a triple would be signed, the screen is at danger and names the delegate |
| PerformSign.ShownDelegateIff | packages/core/src/auth-popup/sign/consent.ts:506-517 | exactly when a bare authorization shows the delegate that is signed |
| PerformSign.CompositeDelegationIff | packages/core/src/auth-popup/sign/consent.ts:525-556 | exactly when the delegate a composite request shows is the one it signs, and that its line is then first and at danger |
| PerformSign.CompositeShowsAnother | packages/core/src/wallet/sandbox.ts:101-109 | with two different delegates the screen shows `address` and the account signs `contractAddress` |
| PerformSign.GrantIsDangerIff | packages/core/src/auth-popup/sign/consent-display.ts:127-195 | a screen of calls is at danger exactly when it shows a delegation or some call at any position is a dangerous grant |
| PerformSign.SimulationKeepsDanger | packages/core/src/auth-popup/sign/consent-display.ts:278-289 | simulation rows never lower the severity, and a revert is danger |
| PerformSign.FeeLineNeverDanger | packages/core/src/auth-popup/sign/consent-display.ts:110-119 | the fee line is outside that rule |
| TypedDataFields.RowsAreLeaves | packages/core/src/auth-popup/sign/consent.ts:220-232 | the rows are the leaves in order, each under the label of its path |
| TypedDataFields.LeavesSound | packages/core/src/auth-popup/sign/consent.ts:220-232 | every listed leaf stands at its path in the message |
| TypedDataFields.LeavesComplete | packages/core/src/auth-popup/sign/consent.ts:220-232 | every scalar, null and empty list at any path is listed |
| TypedDataFields.PathsDistinct | packages/core/src/auth-popup/sign/consent.ts:220-232 | no path is listed twice |
| TypedDataFields.LabelInjective | packages/core/src/auth-popup/sign/consent.ts:220-232 | for names without separators different paths have different labels |
| TypedDataFields.RowsFaithful | packages/core/src/auth-popup/sign/consent.ts:220-232 | as many rows as leaves, and two rows never carry the same label |
| TypedDataFields.RowsDetermineLeaves | packages/core/src/auth-popup/sign/consent.ts:220-232 | struct messages with the same rows have the same leaves |
| TypedDataFields.DottedKeyCollides | packages/core/src/auth-popup/sign/consent.ts:226-231 | a dotted name can take another path's label |
| TypedDataFields.BatchViewIsExact | packages/core/src/auth-popup/sign/consent.ts:195-218 | the batch view is used exactly when the keys are the four batch fields and both call fields are lists |
| NonceAllocator.OneActiveBody | packages/core/src/nonce.ts:47-66 | under any interleaving at most one allocation body is active, and all behind an unsettled one wait |
| NonceAllocator.NeverReissued | packages/core/src/nonce.ts:51-66 | per wallet the nonces returned strictly increase over reloads, each below the persisted counter |
| NonceAllocator.ResultsFollowCalls | packages/core/src/nonce.ts:51-66 | results come back in call order |
| NonceAllocator.CaseInsensitive | packages/core/src/nonce.ts:45-45 | spellings of one address share a counter |
| NonceAllocator.ProjectsToAlone | packages/core/src/nonce.ts:44-68 | every run seen from one wallet is that wallet's own events replayed alone |
| NonceAllocator.Isolation | packages/core/src/nonce.ts:44-68 | another wallet's failures never change a wallet's sequence |
| NonceAllocator.KeyForIff | packages/core/src/nonce.ts:45-45 | two addresses share a key exactly when they differ at most in letter case |
| Text.SameLower | packages/core/src/nonce.ts:45 | two addresses agree in lower case exactly when they agree character by character, letter case apart |
| NonceAllocator.CallersOwnTheJobs | packages/core/src/nonce.ts:51-66 | every call works under the key of its own address |
| NonceAllocator.WalletsAreIsolated | packages/core/src/nonce.ts:44-68 | of addresses: runs that agree on a wallet's own calls and stored value hand it the same nonces, whatever other wallets do |
| NonceAllocator.WalletAlone | packages/core/src/nonce.ts:44-68 | a wallet's nonces are those of its own calls replayed alone |
| NonceAllocator.WalletNeverReissued | packages/core/src/nonce.ts:51-66 | what a wallet's calls return strictly increases over all page loads and stays below what is stored for it |
| NonceAllocator.SequentialNonceAllocator.Call | packages/core/src/nonce.ts:51-66 | a call joins the chain under its lower-cased key |
| NonceAllocator.SequentialNonceAllocator.Begin | packages/core/src/nonce.ts:53-57 | a body starts from the counter, or reads storage first |
| NonceAllocator.SequentialNonceAllocator.ResumeFromGet | packages/core/src/nonce.ts:55-61 | the stored text is read, or the call fails |
| NonceAllocator.SequentialNonceAllocator.ResumeFromSet | packages/core/src/nonce.ts:60-65 | the nonce is returned only after the write |
| NonceAllocator.FoldBytes | packages/core/src/nonce.ts:21-26 | the loop computes the big-endian number of the bytes |
| NonceAllocator.BigEndianRange | packages/core/src/nonce.ts:21-26 | 32 bytes give a number below 2^256 |
| NonceAllocator.FoldIsInjective | packages/core/src/nonce.ts:21-26 | different bytes give different nonces |
| Amount.FormatIsExact | packages/core/src/helpers/amount.ts:10-24 | without its commas the text reads as exactly base / 10^decimals, for every integer |
| Amount.FormatIsInjective | packages/core/src/helpers/amount.ts:10-24 | for fixed decimals different amounts print differently |
| Amount.ThousandsGroups | packages/core/src/helpers/amount.ts:1-8 | commas split the integer part into threes from the right |
| Amount.ThousandsStrip | packages/core/src/helpers/amount.ts:1-8 | deleting the commas gives the digits back |
| Amount.FractionExact | packages/core/src/helpers/amount.ts:13-22 | the fraction shown is the exact remainder; a last zero appears only as the two-place padding |
| Base64Url.RoundTrip | packages/core/src/wallet/encoding.ts:2-14 | every byte string survives, decoded with or without re-padding |
| Base64Url.OutputShape | packages/core/src/wallet/encoding.ts:2-6 | only [A-Za-z0-9_-] appears and n bytes take ceil(4n/3) characters |
| RedirectProtocol.EncodePayload | packages/core/src/channel/redirect-protocol.ts:75-83 | the loop that builds the binary string encodes exactly the JSON within the limit, and refuses otherwise |
| RedirectProtocol.DecodePayload | packages/core/src/channel/redirect-protocol.ts:85-90 | the loop that fills the bytes decodes to the specification |
| RedirectProtocol.RequestRoundTrip | packages/core/src/channel/redirect-protocol.ts:94-118 | a request URL decodes to what was encoded exactly when it is within the limit given (4096 bytes by default), and goes to the point asked for |
| RedirectProtocol.ResultRoundTrip | packages/core/src/channel/redirect-protocol.ts:121-144 | the same for a result URL |
| RedirectProtocol.OtherLegIsNull | packages/core/src/channel/redirect-protocol.ts:111-144 | a URL of one leg carries nothing for the other |
| RedirectProtocol.HashKeepsTarget | packages/core/src/channel/redirect-protocol.ts:121-130 | only the fragment of the target is replaced |
| RedirectProtocol.EmptyParamIsNull | packages/core/src/channel/redirect-protocol.ts:111-144 | an empty parameter is as good as none, and does not throw |
| Deltas.DecodeDeltasAndApprovals | packages/core/src/vault/simulate/deltas.ts:131-223 | the loops push exactly the specified deltas and approvals, log by log |
| Deltas.PushBatch | packages/core/src/vault/simulate/deltas.ts:207-214 | one delta for every id of a batch, missing values as zero |
| Deltas.NetIsLedgerChange | packages/core/src/vault/simulate/deltas.ts:124-223 | per token and id, in minus out equals the balance change of the same logs on a ledger that reads them by the token standards, less what the account moved to itself |
| Deltas.TotalsExactIff | packages/core/src/vault/simulate/deltas.ts:124-129 | the totals are the balance change exactly when no positive amount goes from the account to itself |
| Deltas.ListedIffOwed | packages/core/src/vault/simulate/deltas.ts:124-223 | a delta is listed exactly when some log owes it to the account, kind by kind |
| Deltas.ListedIffGranted | packages/core/src/vault/simulate/deltas.ts:160-190 | an approval is listed exactly when some log gives it |
| Deltas.ForeignLogsAreSilent | packages/core/src/vault/simulate/deltas.ts:124-223 | the deltas of a log list are those of the logs that touch the account, alone |
| Deltas.ApprovalsOfAnyOwner | packages/core/src/vault/simulate/deltas.ts:160-190 | approvals are listed whoever gave them |
| Deltas.GrantsFlagged | packages/core/src/vault/simulate/deltas.ts:131-223 | an ERC-20 approval is flagged unlimited exactly from 2^159 |
| Deltas.NativeOutIsExact | packages/core/src/vault/simulate/deltas.ts:228-231 | every wei the calls send is reported as going out, once |
| KeyFunnel.Fill | packages/core/src/wallet/sandbox.ts:116-123 | a filled buffer is all zero |
| KeyFunnel.ProduceEvmKey | packages/core/src/wallet/crypto/container.ts:28-32 | hands out the container's own buffer |
| KeyFunnel.DeserializeContainer | packages/core/src/wallet/crypto/container.ts:21-26 | copies, so wiping the source leaves it intact |
| KeyFunnel.EvmAccountFrom | packages/core/src/wallet/sandbox.ts:77-113 | the account aliases the key buffer and has its address; exactly when it is refused |
| KeyFunnel.WipedIsInert | packages/core/src/wallet/sandbox.ts:116-119 | an account over a wiped buffer signs nothing |
| KeyFunnel.DeriveWalletKey | packages/core/src/wallet/crypto/derive-wallet.ts:37-56 | K is a fresh copy, and the only buffer allocated that is left unwiped |
| KeyFunnel.GestureExactly | packages/core/src/wallet/sandbox.ts:77-140 | exactly when a gesture succeeds, and that it returns the signature of each digest under K |
| KeyFunnel.WithWalletKey | packages/core/src/wallet/sandbox.ts:128-140 | however the gesture ends the PRF buffer and every buffer allocated on the way are zero, an escaped account is inert, and the signatures are by the derived key |
| KeyFunnel.WithDiscoveredKeys | packages/core/src/wallet/sandbox.ts:150-176 | the same, and the wallet is the handle's or the key's own |
| KeyFunnel.WithNewPasskeyKey | packages/core/src/wallet/sandbox.ts:184-196 | the same for a fresh credential |
| KeyFunnel.ApproveWithImportedKey | packages/core/src/vault/recover/approve.ts:81-117 | the approval is the key's own, and every buffer allocated on the way is zero on every path |
| KeyFunnel.ApproveAsConnectedGuardian | packages/core/src/vault/recover/approve.ts:58-70 | the approval carries the arguments and the wallet's signature |
| KeyFunnel.ApprovalIs | packages/core/src/vault/recover/approve.ts:81-117 | an approval is over the typed data asked for: its promote key and nonce, signed by the guardian's own key |
| KeyFunnel.SameEnvelope | packages/core/src/vault/recover/approve.ts:1-8 | one guardian key gives the same approval either way |
| RecoverCeremony.AlwaysCoherent | packages/core/src/auth-popup/recover/ceremony.ts:72-168 | under any interleaving the state is one coherent snapshot, every key was minted for it, and no mint starts without guardians |
| RecoverCeremony.SubmittedIsCoherent | packages/core/src/auth-popup/recover/ceremony.ts:112-166 | the approval on screen carries that key and nonce, and a connected guardian is in the roster |
| RecoverCeremony.MintsAccountedFor | packages/core/src/auth-popup/recover/ceremony.ts:96-110 | every passkey ceremony started is under way, gave one key, or failed |
| RecoverCeremony.RetriesKeepTheKey | packages/core/src/auth-popup/recover/ceremony.ts:112-166 | failed signatures, however interleaved, keep key, snapshot and nonce, and never mint again |
| RecoverCeremony.RejectedMintChangesNothing | packages/core/src/auth-popup/recover/ceremony.ts:108-109 | a rejected mint leaves the screen as it is |
| RecoverCeremony.FailureIsShown | packages/core/src/auth-popup/recover/ceremony.ts:85-166 | a failed lookup ends on its message; a failed approval goes back to the approval screen with key, snapshot and reason |
| RecoverCeremony.NoGuardiansIsSaid | packages/core/src/auth-popup/recover/ceremony.ts:101-106 | a wallet without guardians is told so, with nothing started |
| RecoverCeremony.LookupWaits | packages/core/src/auth-popup/recover/ceremony.ts:85-90 | until the account is read the screen is looking |
| RecoverCeremony.LookupShows | packages/core/src/auth-popup/recover/ceremony.ts:85-94 | whatever else is under way, entering a wallet ends on exactly what was read of it |
| RecoverCeremony.MintOpensApproval | packages/core/src/auth-popup/recover/ceremony.ts:96-110 | a passkey ceremony opens the approval of that very snapshot with its address |
| RecoverCeremony.StrangerIsRefused | packages/core/src/auth-popup/recover/ceremony.ts:118-133 | a connected wallet outside the roster is refused by name, on the approval screen it came from, and signs nothing |
| RecoverCeremony.ImportedApproves | packages/core/src/auth-popup/recover/ceremony.ts:148-166 | an imported guardian that signs approves this key and this nonce |
| RecoverCeremony.ConnectedApproves | packages/core/src/auth-popup/recover/ceremony.ts:112-146 | so does a connected one of the roster; the approval names the connected address |
| RecoverCeremony.RosterCheckedIff | packages/core/src/auth-popup/recover/ceremony.ts:118-166 | a connected guardian signs exactly when in the roster; an imported one is not looked up |
| RecoverCeremony.IdleShowsLatest | packages/core/src/auth-popup/recover/ceremony.ts:85-94 | a wallet entered with nothing under way is the only one on screen and approved until the next is entered |
| RecoverCeremony.LatestIff | packages/core/src/auth-popup/recover/ceremony.ts:85-166 | whatever follows, the screen and new approvals stay with the wallet just entered exactly when all under way before can only bring that wallet |
| RecoverCeremony.OlderComesBack | packages/core/src/auth-popup/recover/ceremony.ts:108-166 | any task left for another wallet has a continuation that puts it on screen |
| RecoverCeremony.LastAnswerWins | packages/core/src/auth-popup/recover/ceremony.ts:85-94 | an instance with two lookups under way |
| RecoverCeremony.Ceremony.StartEnterWallet | packages/core/src/auth-popup/recover/ceremony.ts:85-88 | entering a wallet up to its first await |
| RecoverCeremony.Ceremony.StartBeginApproval | packages/core/src/auth-popup/recover/ceremony.ts:96-108 | the guard, the refusal without guardians, and the start of the mint |
| RecoverCeremony.Ceremony.StartApprove | packages/core/src/auth-popup/recover/ceremony.ts:112-117 | the guard and the captured locals of an approval |
| RecoverCeremony.Ceremony.ResumeEnterWallet | packages/core/src/auth-popup/recover/ceremony.ts:87-93 | after resolving and after reading |
| RecoverCeremony.Ceremony.ResumeBeginApproval | packages/core/src/auth-popup/recover/ceremony.ts:108-109 | after the mint |
| RecoverCeremony.Ceremony.ResumeApprove | packages/core/src/auth-popup/recover/ceremony.ts:117-166 | after connecting and after signing, on either path |
| Provider.EventsTell | packages/core/src/provider/eip1193.ts:55-63 | the events of a notification turn the remembered state into the present one, each changing something |
| Provider.EventsReplay | packages/core/src/provider/eip1193.ts:51-63 | replaying all events gives the remembered state, in every run whose notifications all complete |
| Provider.CreationIsRemembered | packages/core/src/provider/eip1193.ts:51-63 | the first notification tells only what changed since the provider was created |
| Provider.ReplayAfterNotify | packages/core/src/provider/eip1193.ts:55-63 | after a notification that completes, as all before it did, the replay is (status and account, current address) |
| Provider.Alternate | packages/core/src/provider/eip1193.ts:55-63 | connect and disconnect strictly alternate while notifications complete |
| Provider.TogetherIff | packages/core/src/provider/eip1193.ts:37-63 | a notification keeps replayed and remembered state together exactly when no listener of its events throws |
| Provider.TogetherThroughoutIff | packages/core/src/provider/eip1193.ts:37-63 | over a whole run replayed and remembered state agree exactly when no notification is cut short by a throwing listener |
| Provider.ThrowRepeatsConnect | packages/core/src/provider/eip1193.ts:37-63 | a throw at login lets the next notification say connect again |
| Provider.ThrowLosesDisconnect | packages/core/src/provider/eip1193.ts:37-63 | a throw at login can lose the disconnect at logout |
| Provider.LateListenerHearsSuffix | packages/core/src/provider/eip1193.ts:33-79 | a listener that stays attached as it is hears, while no other listener throws, every event of its names from where it joined, once each and in order |
| Provider.AttachmentFollows | packages/core/src/provider/eip1193.ts:67-77 | attaching or detaching a listener changes just that, and calls nobody |
| Provider.DetachedHearsNothing | packages/core/src/provider/eip1193.ts:75-77 | a listener taken off its one name is never called again, while no other throws |
| Provider.ChainFollows | packages/core/src/provider/eip1193-methods.ts:194-199 | in every run, whoever throws, the chain is the one last announced, and every connect names the chain as it was then |
| Provider.Eip1193Provider.constructor | packages/core/src/provider/eip1193.ts:31-54 | the initial state |
| Provider.Eip1193Provider.EmitEvent | packages/core/src/provider/eip1193.ts:37-41 | listeners are called in order up to the first that throws |
| Provider.Eip1193Provider.StateChanged | packages/core/src/provider/eip1193.ts:55-63 | one notification, and exactly when it completes |
| Provider.Eip1193Provider.AddListener | packages/core/src/provider/eip1193.ts:67-74 | adds once |
| Provider.Eip1193Provider.DropListener | packages/core/src/provider/eip1193.ts:75-77 | removes |
| Client.ReachedIff | packages/core/src/client/client.ts:33-37 | a subscriber is reached exactly when nobody before it throws |
| Client.AvokClient.Subscribe | packages/core/src/client/client.ts:54-59 | subscribing twice is subscribing once |
| Client.AvokClient.Notify | packages/core/src/client/client.ts:35-37 | subscribers are called in order up to the first that throws |
| Client.AvokClient.Login | packages/core/src/client/client.ts:40-44 | only a login that succeeded is announced |
| Fees.MaximumAgainstQuote | packages/core/src/client/evm.ts:361-377 | the signed maximum lies between two and four times the quote, and when it touches either end |
| Fees.ChargeWithinMaximum | packages/core/src/evm/gas-model.ts:36-43 | no charge within the gas limit under EIP-1559 exceeds the maximum, at any base fee |
| Fees.ChargedAsQuoted | packages/core/src/evm/gas-model.ts:45-63 | at the quoted base fee the price charged is the price quoted |
| Fees.BlocksIff | packages/core/src/evm/gas-model.ts:26-43 | for every n: the tip stays payable in full over any n blocks exactly when n largest raises do not double the base fee |
| Fees.FiveBlocksIff | packages/core/src/evm/gas-model.ts:26-43 | the tip stays payable in full over any five blocks exactly when the base fee is at least 5 wei |
| Fees.SixBlocksTooMany | packages/core/src/evm/gas-model.ts:26-43 | six full blocks can be too many from every base fee of 264 wei on |
| Fees.SponsoredFeeIsTheBound | packages/core/src/client/sponsored-userop.ts:143-166 | the displayed fee is the least bound on a charge with every phase within its limit |
| Fees.GasAdds | packages/core/src/evm/gas-model.ts:89 | the estimate is the total gas of the calls |
| WaitLoop.Wait | packages/core/src/client/evm.ts:243-277 | the loop with its defaults returns, or throws, as specified, with that many polls, at most 61 by default |
| WaitLoop.WaitFor | packages/core/src/client/evm.ts:249-277 | the loop equals the round function, poll by poll |
| WaitLoop.WaitingIff | packages/core/src/client/evm.ts:249-277 | exactly when it still waits; otherwise the result is the input changed by the last answer alone |
| WaitLoop.NeverRoundsUp | packages/core/src/evm/track.ts:13-19 | same id, rail and chain; confirmed only if the input was or the last poll said so |
| WaitLoop.LandedIsReported | packages/core/src/client/evm.ts:249-277 | what lands is reported by the first poll that finds it, with its outcome and hash |
| WaitLoop.FailureIsThrown | packages/core/src/client/evm.ts:249-277 | a poll that fails ends the wait with its error |
| WaitLoop.QuietIff | packages/core/src/evm/track.ts:13-19 | a quiet poll is one before the deadline that found nothing or could not look |
| WaitLoop.EndsWithin | packages/core/src/client/evm.ts:244-277 | at most ceil(timeout/interval)+1 polls with an advancing clock, exactly one without a timeout |
| WaitLoop.BoundIsTight | packages/core/src/client/evm.ts:249-277 | the bound is reached |
| WaitLoop.FrozenClockNeverEnds | packages/core/src/client/evm.ts:249-277 | without an advancing clock there is no bound |

## Left out

- viem, noble and WebCrypto internals (keccak, ECDSA, HKDF, the ABI codec, EIP-712 hashing, the UserOperation hash): opaque functions.
- The URL and JSON parsers: a URL is its text with the fragment split off, JSON a codec with a stated round trip; query text is not decoded from UTF-8.
- `encodeBatch` of calls with values outside 256 bits: viem refuses them, which the model has as a batch that does not encode.
- Reloading or navigating the popup, and an opener that navigates to another origin during a session.
- `runAuthRedirect`: the same ceremony behind a URL; only the framing is modelled.
- The authorize leg past its nonce check: the proof and its challenge are opaque content of the reply.
- Calls that are decoded inside a typed-data batch are taken as address text, integer value and hex data; another shape is an error, also where the code would show a missing data field as text.
- `createSiweMessage`: the SIWE text is opaque, only its displayed fields are modelled.
- Addresses in `Deltas` are in checksummed text, the only form that reaches them; comparing without letter case is then comparing texts. A log with a malformed contract address is not modelled.
- Log decoding in `Deltas`: a log is given as the event it decodes to, or as none.
- Listeners that call back into the provider or the client while being notified; an account or roster changed during a notification.
- The callback given to the key funnel is its digests and its outcome; it cannot store other secrets.
- Copies of a secret made by the engine or the garbage collector, and the caller's immutable hex string.
- `resolveSponsorship`, the fee-token registry, RPC failover, bundler and paymaster clients: their answers are parameters.
- `simulateResolved` and its confidence grades: display only, nothing it computes is signed.
- `wallet_sendCalls` and the other request methods of the provider: wire mapping; `chainChanged` is kept as an event.
- Chain registry, name resolution, explorers, account save and load, vault build, CSP, React and DOM views, Solidity contracts.
- PerformSign.FeeLineNeverDanger: the danger of a fee call is not raised because the screen does not raise it, and a typed-data batch shows only its last fee call (consent.ts:270).
- ConsentDisplay.TokenNamed: a token call's native value is not on its line in the code either, so nothing is stated of it.
- SendBuild.Send: of a reused operation that the application has paired with another batch nothing is stated but that it goes out as it is.
