/** Simulated event logs folded into asset deltas and approvals (vault/simulate/deltas.ts), against a ledger that
    replays the same transfers. */
module Deltas {
  import opened Wrappers
  import opened Text
  import Danger

  /** An address in checksummed text, the form the log decoder and the simulated account have: equal addresses are equal
      texts, so comparing without letter case is comparing the texts. */
  type Address = string

  /** Which of the known event selectors a log's first topic is. */
  datatype Topic0 = TransferTopic | ApprovalTopic | ApprovalForAllTopic | TransferSingleTopic | TransferBatchTopic | OtherTopic

  /** What `decodeEventLog` yields. */
  datatype Args =
    | Erc20Transfer(source: Address, dest: Address, value: nat)
    | Erc721Transfer(source: Address, dest: Address, tokenId: nat)
    | Erc20Approval(owner: Address, spender: Address, value: nat)
    | ForAll(owner: Address, operator: Address, approved: bool)
    | Single(source: Address, dest: Address, id: nat, value: nat)
    | Batch(source: Address, dest: Address, ids: seq<nat>, values: seq<nat>)

  /** `args` is what decoding against the event the code picks gives, None where that throws. */
  datatype SimLog = SimLog(token: Address, topic0: Topic0, topicCount: nat, args: Option<Args>)

  datatype Direction = In | Out

  datatype Asset = NativeAsset | Fungible(token: Address) | Nft(token: Address, id: nat) | Multi(token: Address, id: nat)

  datatype AssetDelta = AssetDelta(asset: Asset, amount: nat, direction: Direction)

  datatype ApprovalGrant =
    | Erc20Grant(token: Address, spender: Address, amount: nat, unlimited: bool)
    | CollectionGrant(token: Address, spender: Address, approved: bool)

  function DirectionFor(account: Address, source: Address, dest: Address): Option<Direction> {
    if source == account then Some(Out) else if dest == account then Some(In) else None
  }

  function ValueAt(values: seq<nat>, i: nat): nat {
    if i < |values| then values[i] else 0
  }

  function BatchDeltas(token: Address, ids: seq<nat>, values: seq<nat>, direction: Direction): (ds: seq<AssetDelta>)
    ensures |ds| == |ids|
    ensures forall i :: 0 <= i < |ids| ==> ds[i] == AssetDelta(Multi(token, ids[i]), ValueAt(values, i), direction)
  {
    seq(|ids|, i requires 0 <= i < |ids| => AssetDelta(Multi(token, ids[i]), ValueAt(values, i), direction))
  }

  function OneDelta(asset: Asset, amount: nat, direction: Option<Direction>): seq<AssetDelta> {
    if direction.Some? then [AssetDelta(asset, amount, direction.value)] else []
  }

  /** The transfer a log reports, when its shape is one the code decodes. */
  function TransferOf(log: SimLog): Option<Args> {
    match log.args
    case Some(Erc721Transfer(_, _, _)) => if log.topic0 == TransferTopic && log.topicCount == 4 then log.args else None
    case Some(Erc20Transfer(_, _, _)) => if log.topic0 == TransferTopic && log.topicCount != 4 then log.args else None
    case Some(Single(_, _, _, _)) => if log.topic0 == TransferSingleTopic then log.args else None
    case Some(Batch(_, _, _, _)) => if log.topic0 == TransferBatchTopic then log.args else None
    case _ => None
  }

  function LogDeltas(log: SimLog, account: Address): seq<AssetDelta> {
    match TransferOf(log)
    case Some(Erc721Transfer(s, d, id)) => OneDelta(Nft(log.token, id), 1, DirectionFor(account, s, d))
    case Some(Erc20Transfer(s, d, v)) => OneDelta(Fungible(log.token), v, DirectionFor(account, s, d))
    case Some(Single(s, d, id, v)) => OneDelta(Multi(log.token, id), v, DirectionFor(account, s, d))
    case Some(Batch(s, d, ids, values)) =>
      var direction := DirectionFor(account, s, d);
      if direction.Some? then BatchDeltas(log.token, ids, values, direction.value) else []
    case _ => []
  }

  function LogApprovals(log: SimLog): seq<ApprovalGrant> {
    match log.args
    case Some(Erc20Approval(_, spender, value)) =>
      if log.topic0 == ApprovalTopic then
        [Erc20Grant(log.token, spender, value, Danger.IsUnlimitedAmount(NatToString(value)))]
      else []
    case Some(ForAll(_, operator, approved)) =>
      if log.topic0 == ApprovalForAllTopic then [CollectionGrant(log.token, operator, approved)] else []
    case _ => []
  }

  function DeltasOf(logs: seq<SimLog>, account: Address): seq<AssetDelta> {
    if logs == [] then [] else DeltasOf(logs[..|logs| - 1], account) + LogDeltas(logs[|logs| - 1], account)
  }

  function ApprovalsOf(logs: seq<SimLog>): seq<ApprovalGrant> {
    if logs == [] then [] else ApprovalsOf(logs[..|logs| - 1]) + LogApprovals(logs[|logs| - 1])
  }

  /** The inner loop: one delta pushed for every id of a batch. */
  method PushBatch(deltas: seq<AssetDelta>, token: Address, ids: seq<nat>, values: seq<nat>, direction: Direction)
    returns (all: seq<AssetDelta>)
    ensures all == deltas + BatchDeltas(token, ids, values, direction)
  {
    all := deltas;
    for i := 0 to |ids|
      invariant all == deltas + BatchDeltas(token, ids, values, direction)[..i]
    {
      all := all + [AssetDelta(Multi(token, ids[i]), ValueAt(values, i), direction)];
    }
  }

  /** The decoder step by step: two lists pushed to, log by log. */
  method DecodeDeltasAndApprovals(logs: seq<SimLog>, account: Address)
    returns (deltas: seq<AssetDelta>, approvals: seq<ApprovalGrant>)
    ensures deltas == DeltasOf(logs, account) && approvals == ApprovalsOf(logs)
  {
    deltas, approvals := [], [];
    for n := 0 to |logs|
      invariant deltas == DeltasOf(logs[..n], account) && approvals == ApprovalsOf(logs[..n])
    {
      var log := logs[n];
      assert logs[..n + 1][..n] == logs[..n];
      approvals := approvals + LogApprovals(log);
      var transfer := TransferOf(log);
      if transfer.Some? && transfer.value.Batch? {
        var b := transfer.value;
        var direction := DirectionFor(account, b.source, b.dest);
        if direction.Some? {
          deltas := PushBatch(deltas, log.token, b.ids, b.values, direction.value);
        }
      } else {
        deltas := deltas + LogDeltas(log, account);
      }
    }
    assert logs[..|logs|] == logs;
  }

  // ---- the reference: a ledger that replays every transfer, for every account ----

  datatype Move = Move(source: Address, dest: Address, asset: Asset, amount: nat)

  function BatchMoves(token: Address, source: Address, dest: Address, ids: seq<nat>, values: seq<nat>): seq<Move> {
    if ids == [] || values == [] then []
    else [Move(source, dest, Multi(token, ids[0]), values[0])] + BatchMoves(token, source, dest, ids[1..], values[1..])
  }

  /** What a token's log means on its ledger, by the token standards: an ERC-721 Transfer has its id among four topics, an
      ERC-20 one has not; ERC-1155 moves one id, or several. */
  function LogMoves(log: SimLog): seq<Move> {
    if log.args.None? then []
    else if log.topic0 == TransferTopic && log.topicCount == 4 && log.args.value.Erc721Transfer? then
      [Move(log.args.value.source, log.args.value.dest, Nft(log.token, log.args.value.tokenId), 1)]
    else if log.topic0 == TransferTopic && log.topicCount != 4 && log.args.value.Erc20Transfer? then
      [Move(log.args.value.source, log.args.value.dest, Fungible(log.token), log.args.value.value)]
    else if log.topic0 == TransferSingleTopic && log.args.value.Single? then
      [Move(log.args.value.source, log.args.value.dest, Multi(log.token, log.args.value.id), log.args.value.value)]
    else if log.topic0 == TransferBatchTopic && log.args.value.Batch? then
      BatchMoves(log.token, log.args.value.source, log.args.value.dest, log.args.value.ids, log.args.value.values)
    else []
  }

  function MovesOf(logs: seq<SimLog>): seq<Move> {
    if logs == [] then [] else MovesOf(logs[..|logs| - 1]) + LogMoves(logs[|logs| - 1])
  }

  type Ledger = map<(Address, Asset), int>

  function Balance(l: Ledger, a: Address, asset: Asset): int {
    if (a, asset) in l then l[(a, asset)] else 0
  }

  function ApplyMove(l: Ledger, m: Move): Ledger {
    var debited := l[(m.source, m.asset) := Balance(l, m.source, m.asset) - m.amount];
    debited[(m.dest, m.asset) := Balance(debited, m.dest, m.asset) + m.amount]
  }

  function Replay(l: Ledger, moves: seq<Move>): Ledger
    decreases |moves|
  {
    if moves == [] then l else ApplyMove(Replay(l, moves[..|moves| - 1]), moves[|moves| - 1])
  }

  // ---- net effect of the deltas ----

  function SignedAmount(d: AssetDelta, asset: Asset): int {
    if d.asset != asset then 0 else if d.direction == In then d.amount else -(d.amount as int)
  }

  function Net(ds: seq<AssetDelta>, asset: Asset): int {
    if ds == [] then 0 else Net(ds[..|ds| - 1], asset) + SignedAmount(ds[|ds| - 1], asset)
  }

  /** What one move changes in the account's balance of the asset. */
  function MoveChange(m: Move, account: Address, asset: Asset): int {
    (if m.dest == account && m.asset == asset then m.amount else 0)
    - (if m.source == account && m.asset == asset then m.amount else 0)
  }

  function Changes(moves: seq<Move>, account: Address, asset: Asset): int {
    if moves == [] then 0 else Changes(moves[..|moves| - 1], account, asset) + MoveChange(moves[|moves| - 1], account, asset)
  }

  /** How much of the asset the account moved to itself. */
  function SelfMoved(moves: seq<Move>, account: Address, asset: Asset): nat {
    if moves == [] then 0
    else
      var m := moves[|moves| - 1];
      SelfMoved(moves[..|moves| - 1], account, asset)
      + if m.source == account && m.dest == account && m.asset == asset then m.amount else 0
  }

  lemma {:induction false} NetConcat(a: seq<AssetDelta>, b: seq<AssetDelta>, asset: Asset)
    ensures Net(a + b, asset) == Net(a, asset) + Net(b, asset)
  {
    if b == [] {
      assert a + b == a;
    } else {
      assert (a + b)[..|a + b| - 1] == a + b[..|b| - 1];
      NetConcat(a, b[..|b| - 1], asset);
    }
  }

  lemma {:induction false} ChangesConcat(a: seq<Move>, b: seq<Move>, account: Address, asset: Asset)
    ensures Changes(a + b, account, asset) == Changes(a, account, asset) + Changes(b, account, asset)
    ensures SelfMoved(a + b, account, asset) == SelfMoved(a, account, asset) + SelfMoved(b, account, asset)
  {
    if b == [] {
      assert a + b == a;
    } else {
      assert (a + b)[..|a + b| - 1] == a + b[..|b| - 1];
      ChangesConcat(a, b[..|b| - 1], account, asset);
    }
  }

  lemma {:induction false} ReplayChanges(l: Ledger, moves: seq<Move>, account: Address, asset: Asset)
    ensures Balance(Replay(l, moves), account, asset) == Balance(l, account, asset) + Changes(moves, account, asset)
    decreases |moves|
  {
    if moves != [] {
      ReplayChanges(l, moves[..|moves| - 1], account, asset);
    }
  }

  lemma ChangesOne(m: Move, account: Address, asset: Asset)
    ensures Changes([m], account, asset) == MoveChange(m, account, asset)
    ensures SelfMoved([m], account, asset) ==
      if m.source == account && m.dest == account && m.asset == asset then m.amount else 0
  {
    assert [m][..0] == [];
    assert Changes([m][..0], account, asset) == 0;
    assert SelfMoved([m][..0], account, asset) == 0;
  }

  lemma NetOne(d: AssetDelta, asset: Asset)
    ensures Net([d], asset) == SignedAmount(d, asset)
  {
    assert [d][..0] == [];
    assert Net([d][..0], asset) == 0;
  }

  /** One reported transfer and the move it stands for agree up to what the account moved to itself. */
  lemma OneAgrees(m: Move, account: Address, asset: Asset)
    ensures Net(OneDelta(m.asset, m.amount, DirectionFor(account, m.source, m.dest)), asset)
      == Changes([m], account, asset) - SelfMoved([m], account, asset)
  {
    ChangesOne(m, account, asset);
    if DirectionFor(account, m.source, m.dest).Some? {
      NetOne(AssetDelta(m.asset, m.amount, DirectionFor(account, m.source, m.dest).value), asset);
    }
  }

  lemma {:induction false} NetOfNothing(token: Address, ids: seq<nat>, direction: Direction, asset: Asset)
    ensures Net(BatchDeltas(token, ids, [], direction), asset) == 0
  {
    if ids != [] {
      var n := |ids| - 1;
      assert BatchDeltas(token, ids, [], direction)[..n] == BatchDeltas(token, ids[..n], [], direction);
      NetOfNothing(token, ids[..n], direction, asset);
    }
  }

  lemma {:induction false} BatchAgrees(token: Address, s: Address, d: Address, ids: seq<nat>, values: seq<nat>, account: Address, asset: Asset)
    ensures var direction := DirectionFor(account, s, d);
      (if direction.Some? then Net(BatchDeltas(token, ids, values, direction.value), asset) else 0)
      == Changes(BatchMoves(token, s, d, ids, values), account, asset)
         - SelfMoved(BatchMoves(token, s, d, ids, values), account, asset)
    decreases |ids|
  {
    var direction := DirectionFor(account, s, d);
    if ids != [] && values != [] {
      var m := Move(s, d, Multi(token, ids[0]), values[0]);
      BatchAgrees(token, s, d, ids[1..], values[1..], account, asset);
      OneAgrees(m, account, asset);
      ChangesConcat([m], BatchMoves(token, s, d, ids[1..], values[1..]), account, asset);
      if direction.Some? {
        var rest := BatchDeltas(token, ids[1..], values[1..], direction.value);
        assert BatchDeltas(token, ids, values, direction.value) == OneDelta(m.asset, m.amount, direction) + rest;
        NetConcat(OneDelta(m.asset, m.amount, direction), rest, asset);
      }
    } else if direction.Some? {
      if values == [] { NetOfNothing(token, ids, direction.value, asset); }
    }
  }

  lemma LogAgrees(log: SimLog, account: Address, asset: Asset)
    ensures Net(LogDeltas(log, account), asset)
      == Changes(LogMoves(log), account, asset) - SelfMoved(LogMoves(log), account, asset)
  {
    var t := TransferOf(log);
    if t.Some? && t.value.Batch? {
      BatchAgrees(log.token, t.value.source, t.value.dest, t.value.ids, t.value.values, account, asset);
    } else if LogMoves(log) != [] {
      var m := LogMoves(log)[0];
      assert LogMoves(log) == [m];
      OneAgrees(m, account, asset);
    }
  }

  // ---- the main results ----

  /** For every log list, account and asset: "in" minus "out" equals the account's balance change on the replayed
      ledger, less what the account moved to itself. */
  lemma {:induction false} NetIsLedgerChange(logs: seq<SimLog>, account: Address, asset: Asset, l: Ledger)
    ensures Net(DeltasOf(logs, account), asset)
      == Balance(Replay(l, MovesOf(logs)), account, asset) - Balance(l, account, asset)
         - SelfMoved(MovesOf(logs), account, asset)
  {
    NetIsChanges(logs, account, asset);
    ReplayChanges(l, MovesOf(logs), account, asset);
  }

  lemma {:induction false} NetIsChanges(logs: seq<SimLog>, account: Address, asset: Asset)
    ensures Net(DeltasOf(logs, account), asset)
      == Changes(MovesOf(logs), account, asset) - SelfMoved(MovesOf(logs), account, asset)
  {
    if logs != [] {
      var n := |logs| - 1;
      NetIsChanges(logs[..n], account, asset);
      LogAgrees(logs[n], account, asset);
      NetConcat(DeltasOf(logs[..n], account), LogDeltas(logs[n], account), asset);
      ChangesConcat(MovesOf(logs[..n]), LogMoves(logs[n]), account, asset);
    }
  }

  predicate IsSelfTransfer(m: Move, account: Address, asset: Asset) {
    m.source == account && m.dest == account && m.asset == asset && m.amount > 0
  }

  lemma {:induction false} SelfMovedZero(moves: seq<Move>, account: Address, asset: Asset)
    ensures SelfMoved(moves, account, asset) == 0 <==> forall m :: m in moves ==> !IsSelfTransfer(m, account, asset)
  {
    if moves != [] {
      var n := |moves| - 1;
      SelfMovedZero(moves[..n], account, asset);
      assert moves[n] in moves;
      assert forall m :: m in moves ==> m in moves[..n] || m == moves[n];
      assert forall m :: m in moves[..n] ==> m in moves;
    }
  }

  /** The screen's totals are the balance changes exactly when no positive amount of the asset goes from the account
      to itself. */
  lemma TotalsExactIff(logs: seq<SimLog>, account: Address, asset: Asset, l: Ledger)
    ensures Net(DeltasOf(logs, account), asset)
        == Balance(Replay(l, MovesOf(logs)), account, asset) - Balance(l, account, asset)
      <==> forall m :: m in MovesOf(logs) ==> !IsSelfTransfer(m, account, asset)
  {
    NetIsLedgerChange(logs, account, asset, l);
    SelfMovedZero(MovesOf(logs), account, asset);
  }

  /** The log reports a transfer of one of the four kinds. */
  predicate IsTransfer(log: SimLog) {
    log.args.Some? &&
    match log.args.value
    case Erc721Transfer(_, _, _) => log.topic0 == TransferTopic && log.topicCount == 4
    case Erc20Transfer(_, _, _) => log.topic0 == TransferTopic && log.topicCount != 4
    case Single(_, _, _, _) => log.topic0 == TransferSingleTopic
    case Batch(_, _, _, _) => log.topic0 == TransferBatchTopic
    case _ => false
  }

  /** From or to the account. */
  predicate Touches(log: SimLog, account: Address) {
    IsTransfer(log) && (log.args.value.source == account || log.args.value.dest == account)
  }

  function Touching(logs: seq<SimLog>, account: Address): seq<SimLog> {
    if logs == [] then []
    else Touching(logs[..|logs| - 1], account) + if Touches(logs[|logs| - 1], account) then [logs[|logs| - 1]] else []
  }

  lemma ForeignLogIsSilent(log: SimLog, account: Address)
    requires !Touches(log, account)
    ensures LogDeltas(log, account) == []
  {
  }

  lemma DeltasSnoc(logs: seq<SimLog>, log: SimLog, account: Address)
    ensures DeltasOf(logs + [log], account) == DeltasOf(logs, account) + LogDeltas(log, account)
  {
    assert (logs + [log])[..|logs|] == logs;
  }

  /** Logs that do not touch the account contribute nothing: the deltas are those of the logs that do, alone. */
  lemma {:induction false} ForeignLogsAreSilent(logs: seq<SimLog>, account: Address)
    ensures DeltasOf(logs, account) == DeltasOf(Touching(logs, account), account)
  {
    if logs != [] {
      var before, log := logs[..|logs| - 1], logs[|logs| - 1];
      ForeignLogsAreSilent(before, account);
      if Touches(log, account) {
        DeltasSnoc(Touching(before, account), log, account);
      } else {
        ForeignLogIsSilent(log, account);
        assert Touching(before, account) + [] == Touching(before, account);
      }
    }
  }

  /** The same log with its approval, if it is one, by this owner. */
  function ByOwner(log: SimLog, owner: Address): SimLog {
    match log.args
    case Some(Erc20Approval(_, spender, value)) => log.(args := Some(Erc20Approval(owner, spender, value)))
    case Some(ForAll(_, operator, approved)) => log.(args := Some(ForAll(owner, operator, approved)))
    case _ => log
  }

  function AllByOwner(logs: seq<SimLog>, owner: Address): (r: seq<SimLog>)
    ensures |r| == |logs| && forall i :: 0 <= i < |logs| ==> r[i] == ByOwner(logs[i], owner)
  {
    seq(|logs|, i requires 0 <= i < |logs| => ByOwner(logs[i], owner))
  }

  lemma OwnerPlaysNoPart(log: SimLog, owner: Address)
    ensures LogApprovals(ByOwner(log, owner)) == LogApprovals(log)
  {
  }

  /** Whose approval a log reports plays no part: approvals by others are listed like the account's own. */
  lemma {:induction false} ApprovalsOfAnyOwner(logs: seq<SimLog>, owner: Address)
    ensures ApprovalsOf(AllByOwner(logs, owner)) == ApprovalsOf(logs)
  {
    if logs != [] {
      var n := |logs| - 1;
      ApprovalsOfAnyOwner(logs[..n], owner);
      OwnerPlaysNoPart(logs[n], owner);
      assert AllByOwner(logs, owner)[..n] == AllByOwner(logs[..n], owner);
    }
  }

  /** The delta that a transfer of one asset owes the account. */
  predicate Owes(log: SimLog, account: Address, d: AssetDelta) {
    Touches(log, account) && d.direction == (if log.args.value.source == account then Out else In) &&
    match log.args.value
    case Erc721Transfer(_, _, id) => d.asset == Nft(log.token, id) && d.amount == 1
    case Erc20Transfer(_, _, value) => d.asset == Fungible(log.token) && d.amount == value
    case Single(_, _, id, value) => d.asset == Multi(log.token, id) && d.amount == value
    case Batch(_, _, ids, values) =>
      exists i :: 0 <= i < |ids| && d.asset == Multi(log.token, ids[i]) && d.amount == ValueAt(values, i)
    case _ => false
  }

  lemma LogDeltasAreOwed(log: SimLog, account: Address, d: AssetDelta)
    ensures d in LogDeltas(log, account) <==> Owes(log, account, d)
  {
    if Touches(log, account) && log.args.value.Batch? {
      var b := log.args.value;
      var direction := if b.source == account then Out else In;
      assert LogDeltas(log, account) == BatchDeltas(log.token, b.ids, b.values, direction);
      if Owes(log, account, d) {
        var i :| 0 <= i < |b.ids| && d.asset == Multi(log.token, b.ids[i]) && d.amount == ValueAt(b.values, i);
        assert LogDeltas(log, account)[i] == d;
      }
    }
  }

  /** A delta is listed exactly when some log owes it to the account, kind by kind, self-transfers as going out. */
  lemma {:induction false} ListedIffOwed(logs: seq<SimLog>, account: Address, d: AssetDelta)
    ensures d in DeltasOf(logs, account) <==> exists log :: log in logs && Owes(log, account, d)
  {
    if logs != [] {
      var n := |logs| - 1;
      ListedIffOwed(logs[..n], account, d);
      LogDeltasAreOwed(logs[n], account, d);
      assert forall log :: log in logs <==> log in logs[..n] || log == logs[n];
    }
  }

  /** The grant an approval log gives. */
  predicate Grants(log: SimLog, g: ApprovalGrant) {
    log.args.Some? &&
    match log.args.value
    case Erc20Approval(_, spender, value) =>
      log.topic0 == ApprovalTopic && g == Erc20Grant(log.token, spender, value, value >= Danger.UNLIMITED_UINT160_THRESHOLD)
    case ForAll(_, operator, approved) =>
      log.topic0 == ApprovalForAllTopic && g == CollectionGrant(log.token, operator, approved)
    case _ => false
  }

  lemma LogApprovalsAreGrants(log: SimLog, g: ApprovalGrant)
    ensures g in LogApprovals(log) <==> Grants(log, g)
    ensures |LogApprovals(log)| <= 1
  {
    if log.args.Some? && log.args.value.Erc20Approval? { Danger.UnlimitedExactly(log.args.value.value); }
  }

  /** An approval is listed exactly when some log gives it. */
  lemma {:induction false} ListedIffGranted(logs: seq<SimLog>, g: ApprovalGrant)
    ensures g in ApprovalsOf(logs) <==> exists log :: log in logs && Grants(log, g)
  {
    if logs != [] {
      var n := |logs| - 1;
      ListedIffGranted(logs[..n], g);
      LogApprovalsAreGrants(logs[n], g);
      assert forall log :: log in logs <==> log in logs[..n] || log == logs[n];
    }
  }

  /** The flag of an ERC-20 approval is the numeric threshold. */
  lemma {:induction false} GrantsFlagged(logs: seq<SimLog>)
    ensures forall g :: g in ApprovalsOf(logs) && g.Erc20Grant? ==>
      (g.unlimited <==> g.amount >= Danger.UNLIMITED_UINT160_THRESHOLD)
  {
    if logs != [] {
      var log := logs[|logs| - 1];
      GrantsFlagged(logs[..|logs| - 1]);
      if log.args.Some? && log.args.value.Erc20Approval? {
        Danger.UnlimitedExactly(log.args.value.value);
      }
    }
  }

  // ---- native value, known from the calls alone ----

  function NativeDeltas(values: seq<nat>): seq<AssetDelta> {
    if values == [] then []
    else (if values[0] > 0 then [AssetDelta(NativeAsset, values[0], Out)] else []) + NativeDeltas(values[1..])
  }

  function Sum(values: seq<nat>): nat {
    if values == [] then 0 else values[0] + Sum(values[1..])
  }

  /** Every wei a batch sends is reported as going out, once. */
  lemma {:induction false} NativeOutIsExact(values: seq<nat>)
    ensures Net(NativeDeltas(values), NativeAsset) == -(Sum(values) as int)
    ensures forall d :: d in NativeDeltas(values) ==> d.asset == NativeAsset && d.direction == Out && d.amount > 0
  {
    if values != [] {
      NativeOutIsExact(values[1..]);
      var head := if values[0] > 0 then [AssetDelta(NativeAsset, values[0], Out)] else [];
      NetConcat(head, NativeDeltas(values[1..]), NativeAsset);
      if values[0] > 0 { NetOne(head[0], NativeAsset); }
    }
  }
}
