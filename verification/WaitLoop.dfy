/** Waiting for a receipt: the polling loop `wait` of client/evm.ts, and one native-gas poll (evm/track.ts). The answers
    of the chain or the bundler, and the readings of the clock, are parameters; Err is a rejected call. */
module WaitLoop {
  import opened Wrappers
  import opened Requests

  datatype Status = Pending | Submitted | Confirmed | Failed

  datatype Receipt = Receipt(id: string, rail: Rail, status: Status, txHash: Option<string>, chainId: int, error: Option<string>)

  /** What a mined transaction or operation reports. */
  datatype Mined = Mined(success: bool, txHash: string)

  const REVERTED := "UserOperation reverted on-chain"

  function GetReceiptStatus(receipt: Receipt, answer: Result<Option<Mined>>): Result<Receipt> {
    if receipt.rail != NativeGas || receipt.txHash.None? || receipt.txHash.value == "" then Ok(receipt)
    else
      match answer
      case Err(e) => Err(e)
      case Ok(None) => Ok(receipt)
      case Ok(Some(m)) => Ok(receipt.(status := if m.success then Confirmed else Failed, txHash := Some(m.txHash)))
  }

  /** A sponsored receipt is looked up at the bundler, when there is one. */
  function Poll(current: Receipt, canSponsor: bool, answer: Result<Option<Mined>>): Result<Receipt> {
    if current.rail == Sponsored then
      if !canSponsor then Ok(current)
      else
        match answer
        case Err(e) => Err(e)
        case Ok(None) => Ok(current)
        case Ok(Some(m)) =>
          Ok(current.(status := if m.success then Confirmed else Failed, txHash := Some(m.txHash),
                      error := if m.success then current.error else Some(REVERTED)))
    else GetReceiptStatus(current, answer)
  }

  predicate Settled(r: Receipt) { r.status == Confirmed || r.status == Failed }

  datatype Phase = Waiting | Returned | Threw(message: string)

  datatype State = State(current: Receipt, polls: nat, phase: Phase)

  /** `answers(i)` is the answer to poll i; `clock(0)` is read before the first poll, `clock(i + 1)` after poll i. */
  datatype World = World(canSponsor: bool, answers: nat -> Result<Option<Mined>>, clock: nat -> int)

  function Deadline(w: World, timeoutMs: int): int { w.clock(0) + timeoutMs }

  function Round(w: World, timeoutMs: int, s: State): State {
    if s.phase != Waiting then s
    else
      match Poll(s.current, w.canSponsor, w.answers(s.polls))
      case Err(e) => State(s.current, s.polls + 1, Threw(e))
      case Ok(r) =>
        State(r, s.polls + 1, if Settled(r) || w.clock(s.polls + 1) >= Deadline(w, timeoutMs) then Returned else Waiting)
  }

  function Run(w: World, timeoutMs: int, receipt: Receipt, rounds: nat): State {
    if rounds == 0 then State(receipt, 0, Waiting) else Round(w, timeoutMs, Run(w, timeoutMs, receipt, rounds - 1))
  }

  // ---- what is returned ----

  /** The poll leaves the receipt as it is, unsettled. */
  predicate NoNews(w: World, receipt: Receipt, i: nat) {
    Poll(receipt, w.canSponsor, w.answers(i)) == Ok(receipt) && !Settled(receipt)
  }

  predicate Quiet(w: World, timeoutMs: int, receipt: Receipt, i: nat) {
    NoNews(w, receipt, i) && w.clock(i + 1) < Deadline(w, timeoutMs)
  }

  /** Still waiting after n rounds exactly when every poll brought no news before the deadline; otherwise the receipt
      returned is the input, changed by the last answer and by nothing else. */
  lemma {:induction false} WaitingIff(w: World, timeoutMs: int, receipt: Receipt, n: nat)
    ensures var s := Run(w, timeoutMs, receipt, n);
      && (s.phase == Waiting <==>
            forall i: nat :: i < n ==> Quiet(w, timeoutMs, receipt, i))
      && (s.phase == Waiting ==> s.polls == n && s.current == receipt)
      && (s.phase == Returned ==>
            0 < s.polls <= n && Poll(receipt, w.canSponsor, w.answers(s.polls - 1)) == Ok(s.current)
            && (Settled(s.current) || w.clock(s.polls) >= Deadline(w, timeoutMs)))
      && (s.phase.Threw? ==> 0 < s.polls <= n && w.answers(s.polls - 1).Err? && s.current == receipt)
  {
    if n > 0 {
      WaitingIff(w, timeoutMs, receipt, n - 1);
      var s := Run(w, timeoutMs, receipt, n - 1);
      PollChangesStatus(receipt, w.canSponsor, w.answers(n - 1));
      assert Quiet(w, timeoutMs, receipt, n - 1) <==> NoNews(w, receipt, n - 1) && w.clock(n) < Deadline(w, timeoutMs);
    }
  }

  lemma PollChangesStatus(receipt: Receipt, canSponsor: bool, answer: Result<Option<Mined>>)
    ensures var r := Poll(receipt, canSponsor, answer);
      r.Ok? ==> r.value == receipt || Settled(r.value)
  {
  }

  /** Waiting never rounds up and never changes what is waited for. */
  lemma NeverRoundsUp(w: World, timeoutMs: int, receipt: Receipt, n: nat)
    ensures var s := Run(w, timeoutMs, receipt, n);
      && s.current.id == receipt.id && s.current.rail == receipt.rail && s.current.chainId == receipt.chainId
      && (s.current.status == Confirmed ==>
            receipt.status == Confirmed
            || (s.polls > 0 && exists m: Mined :: w.answers(s.polls - 1) == Ok(Some(m)) && m.success))
      && (s.current.status == Failed ==>
            receipt.status == Failed
            || (s.polls > 0 && exists m: Mined :: w.answers(s.polls - 1) == Ok(Some(m)) && !m.success))
      && (s.current != receipt ==>
            s.polls > 0 && exists m: Mined :: w.answers(s.polls - 1) == Ok(Some(m)) && s.current.txHash == Some(m.txHash))
      && (s.current.error == receipt.error
          || (s.current.error == Some(REVERTED) && receipt.rail == Sponsored && s.current.status == Failed))
      && (receipt.rail == Sponsored && !w.canSponsor ==> s.current == receipt)
  {
    WaitingIff(w, timeoutMs, receipt, n);
  }

  /** The receipt can be looked up: by its hash on the chain, or at the bundler if there is one. */
  predicate Lookable(w: World, receipt: Receipt) {
    if receipt.rail == Sponsored then w.canSponsor else receipt.txHash.Some? && receipt.txHash.value != ""
  }

  /** What lands is reported: the first poll that finds it, after quiet ones, ends the wait with its outcome and its
      hash, and a revert of a sponsored operation says so. */
  lemma LandedIsReported(w: World, timeoutMs: int, receipt: Receipt, i: nat, m: Mined)
    requires Lookable(w, receipt) && w.answers(i) == Ok(Some(m))
    requires forall j: nat :: j < i ==> Quiet(w, timeoutMs, receipt, j)
    ensures var s := Run(w, timeoutMs, receipt, i + 1);
      && s.phase == Returned && s.polls == i + 1
      && s.current.status == (if m.success then Confirmed else Failed)
      && s.current.txHash == Some(m.txHash)
      && (receipt.rail == Sponsored && !m.success ==> s.current.error == Some(REVERTED))
  {
    WaitingIff(w, timeoutMs, receipt, i);
  }

  /** A poll that fails ends the wait with its error, where the receipt can be looked up at all. */
  lemma FailureIsThrown(w: World, timeoutMs: int, receipt: Receipt, i: nat)
    requires Lookable(w, receipt) && w.answers(i).Err?
    requires forall j: nat :: j < i ==> Quiet(w, timeoutMs, receipt, j)
    ensures Run(w, timeoutMs, receipt, i + 1).phase == Threw(w.answers(i).message)
  {
    WaitingIff(w, timeoutMs, receipt, i);
  }

  /** A quiet poll is one that found nothing for an unsettled receipt, or could not look. */
  lemma QuietIff(w: World, timeoutMs: int, receipt: Receipt, i: nat)
    requires receipt.status == Pending || receipt.status == Submitted
    ensures Quiet(w, timeoutMs, receipt, i) <==>
      (!Lookable(w, receipt) || w.answers(i) == Ok(None)) && w.clock(i + 1) < w.clock(0) + timeoutMs
  {
  }

  // ---- how long it takes ----

  /** Every sleep takes at least the interval, and the clock does not run backwards before the first. */
  ghost predicate Advancing(w: World, intervalMs: int) {
    w.clock(1) >= w.clock(0) && forall i: nat :: i >= 1 ==> w.clock(i + 1) >= w.clock(i) + intervalMs
  }

  function CeilDiv(a: int, b: nat): int
    requires 0 < b
  {
    (a + b - 1) / b
  }

  /** One more than the timeout divided by the interval, rounded up; one poll when there is no timeout. */
  function MaxPolls(timeoutMs: int, intervalMs: nat): nat
    requires 0 < intervalMs
  {
    if timeoutMs <= 0 then 1 else CeilDiv(timeoutMs, intervalMs) + 1
  }

  lemma {:induction false} ClockAt(w: World, intervalMs: nat, n: nat)
    requires Advancing(w, intervalMs) && n >= 1
    ensures w.clock(n) >= w.clock(0) + (n - 1) * intervalMs
  {
    if n > 1 {
      ClockAt(w, intervalMs, n - 1);
      assert w.clock(n - 1 + 1) >= w.clock(n - 1) + intervalMs;
      assert (n - 1) * intervalMs == (n - 2) * intervalMs + intervalMs;
    }
  }

  lemma CeilBound(n: nat, d: nat, timeoutMs: int)
    requires 0 < d && n * d < timeoutMs
    ensures n < CeilDiv(timeoutMs, d)
  {
    var q := CeilDiv(timeoutMs, d);
    assert timeoutMs <= q * d;
    TimesLess(q, n, d);
  }

  lemma TimesLess(q: int, n: int, d: nat)
    ensures q <= n ==> q * d <= n * d
  {
  }

  /** With an advancing clock the loop has ended after MaxPolls rounds, whatever is answered; with no timeout after
      exactly one. */
  lemma EndsWithin(w: World, timeoutMs: int, intervalMs: nat, receipt: Receipt)
    requires 0 < intervalMs && Advancing(w, intervalMs)
    ensures var s := Run(w, timeoutMs, receipt, MaxPolls(timeoutMs, intervalMs));
      s.phase != Waiting && 1 <= s.polls <= MaxPolls(timeoutMs, intervalMs)
  {
    var n := MaxPolls(timeoutMs, intervalMs);
    WaitingIff(w, timeoutMs, receipt, n);
    ClockAt(w, intervalMs, n);
    assert n >= 1;
    if Run(w, timeoutMs, receipt, n).phase == Waiting {
      assert Quiet(w, timeoutMs, receipt, n - 1);
      if timeoutMs > 0 { CeilBound(n - 1, intervalMs, timeoutMs); }
      assert false;
    }
  }

  function SlowClock(intervalMs: nat, i: nat): int {
    if i == 0 then 0 else (i - 1) * intervalMs
  }

  /** A clock that advances by the interval alone, and a transaction that never lands. */
  function SlowWorld(intervalMs: nat): World {
    World(true, (i: nat) => Ok(None), (i: nat) => SlowClock(intervalMs, i))
  }

  lemma SlowAdvances(intervalMs: nat)
    ensures Advancing(SlowWorld(intervalMs), intervalMs)
  {
    var w := SlowWorld(intervalMs);
    forall i: nat | i >= 1 ensures w.clock(i + 1) >= w.clock(i) + intervalMs {
      assert SlowClock(intervalMs, i + 1) == SlowClock(intervalMs, i) + intervalMs;
    }
  }

  lemma SlowIsQuiet(timeoutMs: int, intervalMs: nat, receipt: Receipt, i: nat)
    requires 0 < intervalMs && !Settled(receipt) && i + 1 < MaxPolls(timeoutMs, intervalMs)
    ensures Quiet(SlowWorld(intervalMs), timeoutMs, receipt, i)
  {
    BelowCeil(i, intervalMs, timeoutMs);
  }

  /** The bound is reached: with a clock that advances by the interval alone and a transaction that never lands. */
  lemma BoundIsTight(timeoutMs: int, intervalMs: nat, receipt: Receipt)
    requires 0 < intervalMs && !Settled(receipt)
    ensures Advancing(SlowWorld(intervalMs), intervalMs)
    ensures Run(SlowWorld(intervalMs), timeoutMs, receipt, MaxPolls(timeoutMs, intervalMs)).polls == MaxPolls(timeoutMs, intervalMs)
  {
    var w := SlowWorld(intervalMs);
    var n := MaxPolls(timeoutMs, intervalMs);
    SlowAdvances(intervalMs);
    EndsWithin(w, timeoutMs, intervalMs, receipt);
    WaitingIff(w, timeoutMs, receipt, n - 1);
    forall i: nat | i < n - 1 ensures Quiet(w, timeoutMs, receipt, i) { SlowIsQuiet(timeoutMs, intervalMs, receipt, i); }
    assert Run(w, timeoutMs, receipt, n - 1).phase == Waiting;
  }

  lemma BelowCeil(i: nat, d: nat, timeoutMs: int)
    requires 0 < d && i < CeilDiv(timeoutMs, d)
    ensures i * d < timeoutMs
  {
    var q := CeilDiv(timeoutMs, d);
    assert q * d <= timeoutMs + d - 1;
    TimesLess(i + 1, q, d);
    assert (i + 1) * d == i * d + d;
  }

  /** A clock that never reaches the deadline and answers that never bring news keep it waiting for ever: without an
      advancing clock there is no bound. */
  lemma FrozenClockNeverEnds(receipt: Receipt, timeoutMs: int, n: nat)
    requires timeoutMs > 0 && !Settled(receipt)
    ensures Run(World(true, (i: nat) => Ok(None), (i: nat) => 0), timeoutMs, receipt, n).phase == Waiting
  {
    var w := World(true, (i: nat) => Ok(None), (i: nat) => 0);
    WaitingIff(w, timeoutMs, receipt, n);
  }

  const DEFAULT_TIMEOUT_MS := 90_000
  const DEFAULT_INTERVAL_MS: nat := 1_500

  function TimeoutOf(timeoutMs: Option<int>): int {
    if timeoutMs.Some? then timeoutMs.value else DEFAULT_TIMEOUT_MS
  }

  function IntervalOf(intervalMs: Option<nat>): nat {
    if intervalMs.Some? then intervalMs.value else DEFAULT_INTERVAL_MS
  }

  lemma DefaultPolls()
    ensures MaxPolls(DEFAULT_TIMEOUT_MS, DEFAULT_INTERVAL_MS) == 61
  {
  }

  /** The loop as it runs. */
  method WaitFor(w: World, receipt: Receipt, timeoutMs: int, intervalMs: nat) returns (r: Result<Receipt>, polls: nat)
    requires 0 < intervalMs && Advancing(w, intervalMs)
    ensures var s := Run(w, timeoutMs, receipt, MaxPolls(timeoutMs, intervalMs));
      && polls == s.polls
      && r == (if s.phase.Threw? then Err(s.phase.message) else Ok(s.current))
  {
    ghost var bound := MaxPolls(timeoutMs, intervalMs);
    EndsWithin(w, timeoutMs, intervalMs, receipt);
    var deadline := w.clock(0) + timeoutMs;
    var current := receipt;
    polls := 0;
    while true
      invariant Run(w, timeoutMs, receipt, polls) == State(current, polls, Waiting)
      invariant polls < bound
      decreases bound - polls
    {
      Stays(w, timeoutMs, receipt, polls + 1, bound);
      var polled := Poll(current, w.canSponsor, w.answers(polls));
      polls := polls + 1;
      if polled.Err? { return Err(polled.message), polls; }
      current := polled.value;
      if current.status == Confirmed || current.status == Failed { return Ok(current), polls; }
      if w.clock(polls) >= deadline { return Ok(current), polls; }
    }
  }

  /** The loop with its defaults, under which it polls at most 61 times. */
  method Wait(w: World, receipt: Receipt, timeout: Option<int>, interval: Option<nat>) returns (r: Result<Receipt>, polls: nat)
    requires 0 < IntervalOf(interval) && Advancing(w, IntervalOf(interval))
    ensures var timeoutMs := if timeout.Some? then timeout.value else 90_000;
      var intervalMs := if interval.Some? then interval.value else 1_500;
      var s := Run(w, timeoutMs, receipt, MaxPolls(timeoutMs, intervalMs));
      && polls == s.polls
      && r == (if s.phase.Threw? then Err(s.phase.message) else Ok(s.current))
    ensures timeout.None? && interval.None? ==> polls <= 61
  {
    EndsWithin(w, TimeoutOf(timeout), IntervalOf(interval), receipt);
    DefaultPolls();
    r, polls := WaitFor(w, receipt, TimeoutOf(timeout), IntervalOf(interval));
  }

  lemma {:induction false} Stays(w: World, timeoutMs: int, receipt: Receipt, m: nat, n: nat)
    requires m <= n
    ensures Run(w, timeoutMs, receipt, m).phase != Waiting ==> Run(w, timeoutMs, receipt, n) == Run(w, timeoutMs, receipt, m)
    ensures Run(w, timeoutMs, receipt, m).phase == Waiting && Run(w, timeoutMs, receipt, n).phase != Waiting ==> m < n
  {
    if m < n { Stays(w, timeoutMs, receipt, m, n - 1); }
  }
}
