/** Intent-nonce allocation (nonce.ts): the sequential allocator as a promise chain over failing storage, and the
    random allocator's 256-bit fold. */
module NonceAllocator {
  import opened Wrappers
  import opened Text

  function KeyFor(address: string): string {
    "avok:nonce-seq:" + Lower(address)
  }

  /** One `next()` call: waiting for the chain, awaiting `storage.get`, awaiting `storage.set`, or settled. */
  datatype Job =
    | Waiting(key: string)
    | Reading(key: string)
    | Writing(key: string, current: int)
    | Returned(key: string, nonce: int)
    | Failed(key: string)

  predicate IsDone(j: Job) {
    j.Returned? || j.Failed?
  }

  predicate IsActive(j: Job) {
    j.Reading? || j.Writing?
  }

  /** `counters` is the in-memory map; job i + 1 is chained behind job i, whether that one succeeds or fails. */
  datatype Allocator = Allocator(counters: map<string, int>, jobs: seq<Job>)

  const Fresh := Allocator(map[], [])

  function Next(a: Allocator, address: string): Allocator {
    a.(jobs := a.jobs + [Waiting(KeyFor(address))])
  }

  predicate CanStart(a: Allocator, i: nat) {
    i < |a.jobs| && a.jobs[i].Waiting? && (i == 0 || IsDone(a.jobs[i - 1]))
  }

  /** The counter moves in memory before the write is awaited. */
  function Take(a: Allocator, i: nat, current: int): Allocator
    requires i < |a.jobs|
  {
    var key := a.jobs[i].key;
    Allocator(a.counters[key := current + 1], a.jobs[i := Writing(key, current)])
  }

  function Start(a: Allocator, i: nat): Allocator
    requires CanStart(a, i)
  {
    var key := a.jobs[i].key;
    if key in a.counters then Take(a, i, a.counters[key]) else a.(jobs := a.jobs[i := Reading(key)])
  }

  function GetSettled(a: Allocator, i: nat, answer: Result<Option<string>>): Allocator
    requires i < |a.jobs| && a.jobs[i].Reading?
  {
    match answer
    case Err(_) => a.(jobs := a.jobs[i := Failed(a.jobs[i].key)])
    case Ok(None) => Take(a, i, 0)
    case Ok(Some(text)) =>
      match ParseBigInt(text)
      case None => a.(jobs := a.jobs[i := Failed(a.jobs[i].key)])
      case Some(v) => Take(a, i, v)
  }

  function SetSettled(a: Allocator, i: nat, ok: bool): Allocator
    requires i < |a.jobs| && a.jobs[i].Writing?
  {
    var j := a.jobs[i];
    a.(jobs := a.jobs[i := if ok then Returned(j.key, j.current) else Failed(j.key)])
  }

  /** The allocator as the closure runs it, one method per resumption. */
  class SequentialNonceAllocator {
    var counters: map<string, int>
    var jobs: seq<Job>

    function State(): Allocator
      reads this
    {
      Allocator(counters, jobs)
    }

    constructor ()
      ensures State() == Fresh
    {
      counters, jobs := map[], [];
    }

    method Call(address: string) returns (id: nat)
      modifies this
      ensures State() == Next(old(State()), address) && id == |old(jobs)|
    {
      id := |jobs|;
      jobs := jobs + [Waiting(KeyFor(address))];
    }

    method Assign(i: nat, current: int)
      requires i < |jobs|
      modifies this
      ensures State() == Take(old(State()), i, current)
    {
      var key := jobs[i].key;
      counters := counters[key := current + 1];
      jobs := jobs[i := Writing(key, current)];
    }

    method Begin(i: nat)
      requires CanStart(State(), i)
      modifies this
      ensures State() == Start(old(State()), i)
    {
      var key := jobs[i].key;
      if key in counters {
        Assign(i, counters[key]);
      } else {
        jobs := jobs[i := Reading(key)];
      }
    }

    method ResumeFromGet(i: nat, answer: Result<Option<string>>)
      requires i < |jobs| && jobs[i].Reading?
      modifies this
      ensures State() == GetSettled(old(State()), i, answer)
    {
      if answer.Err? {
        jobs := jobs[i := Failed(jobs[i].key)];
        return;
      }
      var current: int := 0;
      if answer.value.Some? {
        var parsed := ParseBigInt(answer.value.value);
        if parsed.None? {
          jobs := jobs[i := Failed(jobs[i].key)];
          return;
        }
        current := parsed.value;
      }
      Assign(i, current);
    }

    method ResumeFromSet(i: nat, ok: bool)
      requires i < |jobs| && jobs[i].Writing?
      modifies this
      ensures State() == SetSettled(old(State()), i, ok)
    {
      var j := jobs[i];
      jobs := jobs[i := if ok then Returned(j.key, j.current) else Failed(j.key)];
    }
  }

  // ---- runs over storage that may fail, and over reloads ----

  datatype Issue = Issue(key: string, nonce: int)

  /** `issued` is every nonce ever handed to a caller, over all page loads. */
  datatype System = System(allocator: Allocator, storage: map<string, string>, issued: seq<Issue>)

  /** A write is atomic: reported as done it was applied; reported as failed, or cut off by a reload, it was applied
      or lost. */
  datatype Step =
    | CallNext(address: string)
    | Begin(i: nat)
    | GetAnswers(i: nat)
    | GetFails(i: nat)
    | SetSucceeds(i: nat)
    | SetFails(i: nat, applied: bool)
    | Reload(i: nat, applied: bool)

  predicate AwaitsGet(s: System, i: nat) {
    i < |s.allocator.jobs| && s.allocator.jobs[i].Reading?
  }

  predicate AwaitsSet(s: System, i: nat) {
    i < |s.allocator.jobs| && s.allocator.jobs[i].Writing?
  }

  function Lookup(storage: map<string, string>, key: string): Option<string> {
    if key in storage then Some(storage[key]) else None
  }

  function Written(s: System, i: nat): map<string, string>
    requires AwaitsSet(s, i)
  {
    var j := s.allocator.jobs[i];
    s.storage[j.key := IntToString(j.current + 1)]
  }

  function Apply(s: System, step: Step): System {
    match step
    case CallNext(address) => s.(allocator := Next(s.allocator, address))
    case Begin(i) => if CanStart(s.allocator, i) then s.(allocator := Start(s.allocator, i)) else s
    case GetAnswers(i) =>
      if AwaitsGet(s, i) then
        s.(allocator := GetSettled(s.allocator, i, Ok(Lookup(s.storage, s.allocator.jobs[i].key))))
      else s
    case GetFails(i) => if AwaitsGet(s, i) then s.(allocator := GetSettled(s.allocator, i, Err("get"))) else s
    case SetSucceeds(i) =>
      if AwaitsSet(s, i) then
        var j := s.allocator.jobs[i];
        System(SetSettled(s.allocator, i, true), Written(s, i), s.issued + [Issue(j.key, j.current)])
      else s
    case SetFails(i, applied) =>
      if AwaitsSet(s, i) then
        System(SetSettled(s.allocator, i, false), if applied then Written(s, i) else s.storage, s.issued)
      else s
    case Reload(i, applied) =>
      System(Fresh, if applied && AwaitsSet(s, i) then Written(s, i) else s.storage, s.issued)
  }

  function Run(storage: map<string, string>, steps: seq<Step>): System
    decreases |steps|
  {
    if steps == [] then System(Fresh, storage, [])
    else Apply(Run(storage, steps[..|steps| - 1]), steps[|steps| - 1])
  }

  // ---- the invariant ----

  /** Everything behind an unsettled job is still waiting. */
  predicate OneAtATime(jobs: seq<Job>) {
    forall i, j :: 0 <= i < j < |jobs| ==> jobs[j].Waiting? || IsDone(jobs[i])
  }

  predicate AllBelow(issued: seq<Issue>, key: string, bound: int) {
    forall i :: 0 <= i < |issued| && issued[i].key == key ==> issued[i].nonce < bound
  }

  predicate Persisted(s: System, e: Issue) {
    e.key in s.storage && ParseBigInt(s.storage[e.key]).Some? && e.nonce < ParseBigInt(s.storage[e.key]).value
  }

  predicate Increasing(issued: seq<Issue>) {
    forall i, j :: 0 <= i < j < |issued| && issued[i].key == issued[j].key ==> issued[i].nonce < issued[j].nonce
  }

  /** What the calls of this page load returned, in call order. */
  function Results(jobs: seq<Job>): seq<Issue> {
    if jobs == [] then []
    else
      var j := jobs[|jobs| - 1];
      Results(jobs[..|jobs| - 1]) + if j.Returned? then [Issue(j.key, j.nonce)] else []
  }

  predicate EndsWith<T(==)>(s: seq<T>, tail: seq<T>) {
    |tail| <= |s| && s[|s| - |tail|..] == tail
  }

  ghost predicate Inv(s: System) {
    var a := s.allocator;
    && OneAtATime(a.jobs)
    && Increasing(s.issued)
    && EndsWith(s.issued, Results(a.jobs))
    && (forall i :: 0 <= i < |s.issued| ==> Persisted(s, s.issued[i]))
    && (forall k :: k in a.counters ==> AllBelow(s.issued, k, a.counters[k]))
    && (forall i :: 0 <= i < |a.jobs| && a.jobs[i].Writing? ==>
          a.jobs[i].key in a.counters && a.counters[a.jobs[i].key] == a.jobs[i].current + 1
          && AllBelow(s.issued, a.jobs[i].key, a.jobs[i].current))
  }

  lemma {:induction false} ResultsPrefix(jobs: seq<Job>, n: nat)
    requires n <= |jobs| && forall i :: n <= i < |jobs| ==> !jobs[i].Returned?
    ensures Results(jobs) == Results(jobs[..n])
    decreases |jobs|
  {
    if n == |jobs| {
      assert jobs[..n] == jobs;
    } else {
      ResultsPrefix(jobs[..|jobs| - 1], n);
      assert jobs[..|jobs| - 1][..n] == jobs[..n];
    }
  }

  /** Settling the one unsettled job i changes the results by at most its own, at the end. */
  lemma ResultsUpdate(jobs: seq<Job>, i: nat, j: Job)
    requires OneAtATime(jobs) && i < |jobs| && !IsDone(jobs[i])
    ensures Results(jobs[i := j]) == Results(jobs) + if j.Returned? then [Issue(j.key, j.nonce)] else []
  {
    var after := jobs[i := j];
    ResultsPrefix(jobs, i);
    ResultsPrefix(after, i + 1);
    assert after[..i + 1][..i] == jobs[..i];
  }

  lemma TakeInv(s: System, i: nat, current: int)
    requires Inv(s) && i < |s.allocator.jobs|
    requires CanStart(s.allocator, i) || AwaitsGet(s, i)
    requires AllBelow(s.issued, s.allocator.jobs[i].key, current)
    ensures Inv(s.(allocator := Take(s.allocator, i, current)))
  {
    var key := s.allocator.jobs[i].key;
    ResultsUpdate(s.allocator.jobs, i, Writing(key, current));
    NoOtherActive(s.allocator.jobs, i);
  }

  /** While job i is the one that moves, no other job is active. */
  lemma NoOtherActive(jobs: seq<Job>, i: nat)
    requires OneAtATime(jobs) && i < |jobs| && !IsDone(jobs[i]) && (i == 0 || IsDone(jobs[i - 1]) || !jobs[i].Waiting?)
    ensures forall j :: 0 <= j < |jobs| && j != i ==> !IsActive(jobs[j])
  {
    forall j | 0 <= j < |jobs| && j != i ensures !IsActive(jobs[j]) {
      if j < i - 1 {
        assert jobs[i - 1].Waiting? || IsDone(jobs[j]);
      }
    }
  }

  lemma MarkInv(s: System, i: nat, j: Job)
    requires Inv(s) && i < |s.allocator.jobs| && (CanStart(s.allocator, i) || IsActive(s.allocator.jobs[i]))
    requires j.Reading? || j.Failed?
    ensures Inv(s.(allocator := s.allocator.(jobs := s.allocator.jobs[i := j])))
  {
    ResultsUpdate(s.allocator.jobs, i, j);
    NoOtherActive(s.allocator.jobs, i);
  }

  lemma BeginInv(s: System, i: nat)
    requires Inv(s) && CanStart(s.allocator, i)
    ensures Inv(Apply(s, Begin(i)))
  {
    var key := s.allocator.jobs[i].key;
    if key in s.allocator.counters {
      TakeInv(s, i, s.allocator.counters[key]);
    } else {
      MarkInv(s, i, Reading(key));
    }
  }

  lemma GetInv(s: System, i: nat)
    requires Inv(s) && AwaitsGet(s, i)
    ensures Inv(Apply(s, GetAnswers(i)))
  {
    var key := s.allocator.jobs[i].key;
    forall n | 0 <= n < |s.issued| && s.issued[n].key == key ensures Persisted(s, s.issued[n]) {}
    match Lookup(s.storage, key)
    case None => TakeInv(s, i, 0);
    case Some(text) =>
      match ParseBigInt(text)
      case None => MarkInv(s, i, Failed(key));
      case Some(v) => TakeInv(s, i, v);
  }

  /** A write, reported or not, keeps every issued nonce below the persisted counter. */
  lemma WriteKeepsPersisted(s: System, i: nat)
    requires Inv(s) && AwaitsSet(s, i)
    ensures var j := s.allocator.jobs[i];
      var s' := s.(storage := Written(s, i));
      (forall n :: 0 <= n < |s.issued| ==> Persisted(s', s.issued[n])) && Persisted(s', Issue(j.key, j.current))
  {
    BigIntRoundTrip(s.allocator.jobs[i].current + 1);
    forall n | 0 <= n < |s.issued| ensures Persisted(s.(storage := Written(s, i)), s.issued[n]) {
      assert Persisted(s, s.issued[n]);
    }
  }

  lemma IssueIncreases(issued: seq<Issue>, e: Issue, tail: seq<Issue>)
    requires Increasing(issued) && AllBelow(issued, e.key, e.nonce) && EndsWith(issued, tail)
    ensures Increasing(issued + [e]) && EndsWith(issued + [e], tail + [e])
    ensures forall k, bound :: AllBelow(issued, k, bound) && (k == e.key ==> e.nonce < bound) ==> AllBelow(issued + [e], k, bound)
  {
    var after := issued + [e];
    assert after[|after| - |tail| - 1..] == issued[|issued| - |tail|..] + [e];
  }

  lemma SetInv(s: System, i: nat)
    requires Inv(s) && AwaitsSet(s, i)
    ensures Inv(Apply(s, SetSucceeds(i)))
  {
    var j := s.allocator.jobs[i];
    var e := Issue(j.key, j.current);
    var s' := Apply(s, SetSucceeds(i));
    NoOtherActive(s.allocator.jobs, i);
    ResultsUpdate(s.allocator.jobs, i, Returned(j.key, j.current));
    IssueIncreases(s.issued, e, Results(s.allocator.jobs));
    SetPersists(s, i);
    assert OneAtATime(s'.allocator.jobs);
  }

  lemma SetPersists(s: System, i: nat)
    requires Inv(s) && AwaitsSet(s, i)
    ensures var s' := Apply(s, SetSucceeds(i));
      forall n :: 0 <= n < |s'.issued| ==> Persisted(s', s'.issued[n])
  {
    var s' := Apply(s, SetSucceeds(i));
    WriteKeepsPersisted(s, i);
    forall n | 0 <= n < |s'.issued| ensures Persisted(s', s'.issued[n]) {
      if n < |s.issued| { assert s'.issued[n] == s.issued[n]; }
      assert Persisted(s.(storage := Written(s, i)), s'.issued[n]);
    }
  }

  lemma StepInv(s: System, step: Step)
    requires Inv(s)
    ensures Inv(Apply(s, step))
  {
    match step
    case CallNext(address) => CallInv(s, address);
    case Begin(i) => if CanStart(s.allocator, i) { BeginInv(s, i); }
    case GetAnswers(i) => if AwaitsGet(s, i) { GetInv(s, i); }
    case GetFails(i) => if AwaitsGet(s, i) { MarkInv(s, i, Failed(s.allocator.jobs[i].key)); }
    case SetSucceeds(i) => if AwaitsSet(s, i) { SetInv(s, i); }
    case SetFails(i, applied) =>
      if AwaitsSet(s, i) {
        WriteKeepsPersisted(s, i);
        MarkInv(s, i, Failed(s.allocator.jobs[i].key));
      }
    case Reload(i, applied) => if AwaitsSet(s, i) { WriteKeepsPersisted(s, i); }
  }

  lemma WaitingLast(jobs: seq<Job>, key: string)
    requires OneAtATime(jobs)
    ensures OneAtATime(jobs + [Waiting(key)]) && Results(jobs + [Waiting(key)]) == Results(jobs)
  {
    assert (jobs + [Waiting(key)])[..|jobs|] == jobs;
    assert Results(jobs) + [] == Results(jobs);
  }

  lemma CallInv(s: System, address: string)
    requires Inv(s)
    ensures Inv(Apply(s, CallNext(address)))
  {
    WaitingLast(s.allocator.jobs, KeyFor(address));
  }

  lemma {:induction false} RunInv(storage: map<string, string>, steps: seq<Step>)
    ensures Inv(Run(storage, steps))
    decreases |steps|
  {
    if steps != [] {
      RunInv(storage, steps[..|steps| - 1]);
      StepInv(Run(storage, steps[..|steps| - 1]), steps[|steps| - 1]);
    }
  }

  // ---- the main results ----

  /** Over every interleaving of calls, storage answers, failures and reloads: at most one allocation body is active,
      and every call behind an unsettled one is still waiting. */
  lemma OneActiveBody(storage: map<string, string>, steps: seq<Step>, i: nat, j: nat)
    requires i < j < |Run(storage, steps).allocator.jobs|
    ensures var jobs := Run(storage, steps).allocator.jobs;
      !(IsActive(jobs[i]) && IsActive(jobs[j])) && (!IsDone(jobs[i]) ==> jobs[j].Waiting?)
  {
    RunInv(storage, steps);
  }

  /** Nonces handed out for one wallet strictly increase over the whole history, reloads included, and each is below
      the counter persisted for that wallet. */
  lemma NeverReissued(storage: map<string, string>, steps: seq<Step>)
    ensures var s := Run(storage, steps);
      Increasing(s.issued) && forall i :: 0 <= i < |s.issued| ==> Persisted(s, s.issued[i])
  {
    RunInv(storage, steps);
  }

  /** Results come back in call order: what this page load's calls returned, read in call order, is the end of the
      issue history. */
  lemma ResultsFollowCalls(storage: map<string, string>, steps: seq<Step>)
    ensures var s := Run(storage, steps); EndsWith(s.issued, Results(s.allocator.jobs))
  {
    RunInv(storage, steps);
  }

  /** Two spellings of one address share a counter. */
  lemma CaseInsensitive(a: string, b: string)
    requires Lower(a) == Lower(b)
    ensures forall alloc :: Next(alloc, a) == Next(alloc, b)
  {
  }

  // ---- one wallet's sequence depends on nothing but its own events ----

  datatype Phase = Idle | AtGet | AtSet(current: int)

  datatype View = View(counter: Option<int>, stored: Option<string>, phase: Phase, issued: seq<int>)

  datatype Event =
    | Began
    | Got
    | GetFailed
    | SetDone
    | SetFailed(applied: bool)
    | Reloaded(applied: bool)

  /** The wallet alone: the same code over one counter and one stored value. */
  function Alone(v: View, e: Event): View {
    match e
    case Began =>
      if v.counter.Some? then v.(counter := Some(v.counter.value + 1), phase := AtSet(v.counter.value))
      else v.(phase := AtGet)
    case Got =>
      if v.stored.None? then v.(counter := Some(1), phase := AtSet(0))
      else
        (match ParseBigInt(v.stored.value)
         case None => v.(phase := Idle)
         case Some(n) => v.(counter := Some(n + 1), phase := AtSet(n)))
    case GetFailed => v.(phase := Idle)
    case SetDone =>
      if v.phase.AtSet? then
        v.(stored := Some(IntToString(v.phase.current + 1)), phase := Idle, issued := v.issued + [v.phase.current])
      else v
    case SetFailed(applied) =>
      if applied && v.phase.AtSet? then v.(stored := Some(IntToString(v.phase.current + 1)), phase := Idle)
      else v.(phase := Idle)
    case Reloaded(applied) =>
      if applied && v.phase.AtSet? then View(None, Some(IntToString(v.phase.current + 1)), Idle, v.issued)
      else View(None, v.stored, Idle, v.issued)
  }

  function JobPhase(j: Job, key: string): Phase {
    if j.key == key && j.Reading? then AtGet
    else if j.key == key && j.Writing? then AtSet(j.current)
    else Idle
  }

  function PhaseOf(jobs: seq<Job>, key: string): Phase {
    if jobs == [] then Idle
    else
      var last := JobPhase(jobs[|jobs| - 1], key);
      if last == Idle then PhaseOf(jobs[..|jobs| - 1], key) else last
  }

  function IssuedFor(issued: seq<Issue>, key: string): seq<int> {
    if issued == [] then []
    else
      var e := issued[|issued| - 1];
      IssuedFor(issued[..|issued| - 1], key) + if e.key == key then [e.nonce] else []
  }

  function ViewOf(s: System, key: string): View {
    View(if key in s.allocator.counters then Some(s.allocator.counters[key]) else None,
         Lookup(s.storage, key), PhaseOf(s.allocator.jobs, key), IssuedFor(s.issued, key))
  }

  /** The event a step is for this wallet, if it is one at all. */
  function EventFor(s: System, step: Step, key: string): Option<Event> {
    var jobs := s.allocator.jobs;
    match step
    case CallNext(_) => None
    case Begin(i) => if CanStart(s.allocator, i) && jobs[i].key == key then Some(Began) else None
    case GetAnswers(i) => if AwaitsGet(s, i) && jobs[i].key == key then Some(Got) else None
    case GetFails(i) => if AwaitsGet(s, i) && jobs[i].key == key then Some(GetFailed) else None
    case SetSucceeds(i) => if AwaitsSet(s, i) && jobs[i].key == key then Some(SetDone) else None
    case SetFails(i, applied) => if AwaitsSet(s, i) && jobs[i].key == key then Some(SetFailed(applied)) else None
    case Reload(i, applied) => Some(Reloaded(applied && AwaitsSet(s, i) && jobs[i].key == key))
  }

  function EventsFor(storage: map<string, string>, steps: seq<Step>, key: string): seq<Event>
    decreases |steps|
  {
    if steps == [] then []
    else
      var before := steps[..|steps| - 1];
      EventsFor(storage, before, key)
      + match EventFor(Run(storage, before), steps[|steps| - 1], key) case None => [] case Some(e) => [e]
  }

  function Replay(v: View, events: seq<Event>): View
    decreases |events|
  {
    if events == [] then v else Alone(Replay(v, events[..|events| - 1]), events[|events| - 1])
  }

  lemma {:induction false} PhaseIdle(jobs: seq<Job>, key: string)
    requires forall i :: 0 <= i < |jobs| && jobs[i].key == key ==> !IsActive(jobs[i])
    ensures PhaseOf(jobs, key) == Idle
  {
    if jobs != [] { PhaseIdle(jobs[..|jobs| - 1], key); }
  }

  lemma {:induction false} PhaseIs(jobs: seq<Job>, i: nat, key: string)
    requires i < |jobs| && forall j :: 0 <= j < |jobs| && j != i ==> !IsActive(jobs[j])
    ensures PhaseOf(jobs, key) == JobPhase(jobs[i], key)
  {
    if i == |jobs| - 1 {
      PhaseIdle(jobs[..|jobs| - 1], key);
    } else {
      PhaseIs(jobs[..|jobs| - 1], i, key);
    }
  }

  /** What a step does to one wallet's view. */
  ghost predicate Follows(s: System, step: Step, key: string) {
    ViewOf(Apply(s, step), key) ==
      match EventFor(s, step, key) case None => ViewOf(s, key) case Some(e) => Alone(ViewOf(s, key), e)
  }

  lemma ReloadView(s: System, i: nat, applied: bool, key: string)
    requires Inv(s)
    ensures Follows(s, Reload(i, applied), key)
  {
    var s' := Apply(s, Reload(i, applied));
    if applied && AwaitsSet(s, i) && s.allocator.jobs[i].key == key {
      AwaitedPhase(s, i);
      assert EventFor(s, Reload(i, applied), key) == Some(Reloaded(true));
      assert Lookup(s'.storage, key) == Some(IntToString(s.allocator.jobs[i].current + 1));
    } else {
      assert EventFor(s, Reload(i, applied), key) == Some(Reloaded(false));
      assert Lookup(s'.storage, key) == Lookup(s.storage, key);
    }
  }

  lemma AwaitedPhase(s: System, i: nat)
    requires Inv(s) && AwaitsSet(s, i)
    ensures PhaseOf(s.allocator.jobs, s.allocator.jobs[i].key) == AtSet(s.allocator.jobs[i].current)
  {
    NoOtherActive(s.allocator.jobs, i);
    PhaseIs(s.allocator.jobs, i, s.allocator.jobs[i].key);
  }

  lemma GetView(s: System, i: nat, key: string)
    requires Inv(s) && AwaitsGet(s, i)
    ensures Follows(s, GetAnswers(i), key)
  {
    MoveView(s, i, Apply(s, GetAnswers(i)), key);
  }

  lemma GetFailedView(s: System, i: nat, key: string)
    requires Inv(s) && AwaitsGet(s, i)
    ensures Follows(s, GetFails(i), key)
  {
    MoveView(s, i, Apply(s, GetFails(i)), key);
  }

  lemma BeginView(s: System, i: nat, key: string)
    requires Inv(s) && CanStart(s.allocator, i)
    ensures Follows(s, Begin(i), key)
  {
    MoveView(s, i, Apply(s, Begin(i)), key);
  }

  lemma IssuedAppend(issued: seq<Issue>, e: Issue, key: string)
    ensures IssuedFor(issued + [e], key) == IssuedFor(issued, key) + if e.key == key then [e.nonce] else []
  {
    assert (issued + [e])[..|issued|] == issued;
  }

  lemma SetDoneView(s: System, i: nat, key: string)
    requires Inv(s) && AwaitsSet(s, i)
    ensures Follows(s, SetSucceeds(i), key)
  {
    var j := s.allocator.jobs[i];
    MoveView(s, i, Apply(s, SetSucceeds(i)), key);
    IssuedAppend(s.issued, Issue(j.key, j.current), key);
  }

  lemma SetFailedView(s: System, i: nat, applied: bool, key: string)
    requires Inv(s) && AwaitsSet(s, i)
    ensures Follows(s, SetFails(i, applied), key)
  {
    var s' := Apply(s, SetFails(i, applied));
    MoveView(s, i, s', key);
    assert s'.allocator.counters == s.allocator.counters && s'.issued == s.issued;
    if s.allocator.jobs[i].key != key {
      assert ViewOf(s', key) == ViewOf(s, key);
    } else {
      assert ViewOf(s, key).phase == AtSet(s.allocator.jobs[i].current);
    }
  }

  lemma ViewStep(s: System, step: Step, key: string)
    requires Inv(s)
    ensures Follows(s, step, key)
  {
    match step
    case CallNext(address) =>
      assert (s.allocator.jobs + [Waiting(KeyFor(address))])[..|s.allocator.jobs|] == s.allocator.jobs;
    case Reload(i, applied) => ReloadView(s, i, applied, key);
    case Begin(i) => if CanStart(s.allocator, i) { BeginView(s, i, key); }
    case GetAnswers(i) => if AwaitsGet(s, i) { GetView(s, i, key); }
    case GetFails(i) => if AwaitsGet(s, i) { GetFailedView(s, i, key); }
    case SetSucceeds(i) => if AwaitsSet(s, i) { SetDoneView(s, i, key); }
    case SetFails(i, applied) => if AwaitsSet(s, i) { SetFailedView(s, i, applied, key); }
  }

  lemma MoveView(s: System, i: nat, s': System, key: string)
    requires Inv(s) && i < |s.allocator.jobs| && (CanStart(s.allocator, i) || IsActive(s.allocator.jobs[i]))
    requires |s'.allocator.jobs| == |s.allocator.jobs|
    requires s'.allocator.jobs == s.allocator.jobs[i := s'.allocator.jobs[i]]
    ensures PhaseOf(s.allocator.jobs, key) == JobPhase(s.allocator.jobs[i], key)
    ensures PhaseOf(s'.allocator.jobs, key) == JobPhase(s'.allocator.jobs[i], key)
  {
    NoOtherActive(s.allocator.jobs, i);
    PhaseIs(s.allocator.jobs, i, key);
    PhaseIs(s'.allocator.jobs, i, key);
  }

  /** Every run, seen from one wallet, is that wallet's own events replayed alone. */
  lemma {:induction false} ProjectsToAlone(storage: map<string, string>, steps: seq<Step>, key: string)
    ensures ViewOf(Run(storage, steps), key) ==
      Replay(View(None, Lookup(storage, key), Idle, []), EventsFor(storage, steps, key))
    decreases |steps|
  {
    if steps != [] {
      var before := steps[..|steps| - 1];
      ProjectsToAlone(storage, before, key);
      RunInv(storage, before);
      ViewStep(Run(storage, before), steps[|steps| - 1], key);
      var events := EventsFor(storage, steps, key);
      if EventFor(Run(storage, before), steps[|steps| - 1], key).Some? {
        assert events[..|events| - 1] == EventsFor(storage, before, key);
      } else {
        assert events == EventsFor(storage, before, key);
      }
    }
  }

  /** One wallet's failures never affect another's sequence: runs that agree on a wallet's own events and its stored
      value hand it the same nonces, whatever happens to every other wallet. */
  lemma Isolation(storage1: map<string, string>, steps1: seq<Step>, storage2: map<string, string>, steps2: seq<Step>, key: string)
    requires Lookup(storage1, key) == Lookup(storage2, key)
    requires EventsFor(storage1, steps1, key) == EventsFor(storage2, steps2, key)
    ensures IssuedFor(Run(storage1, steps1).issued, key) == IssuedFor(Run(storage2, steps2).issued, key)
  {
    ProjectsToAlone(storage1, steps1, key);
    ProjectsToAlone(storage2, steps2, key);
    assert ViewOf(Run(storage1, steps1), key) == ViewOf(Run(storage2, steps2), key);
  }

  // ---- the same of addresses ----

  /** Spellings of one address: equal up to letter case. */
  predicate SameWallet(a: string, b: string) { Lower(a) == Lower(b) }

  /** Every wallet has a counter of its own. */
  lemma KeyForIff(a: string, b: string)
    ensures KeyFor(a) == KeyFor(b) <==> SameWallet(a, b)
  {
    var prefix := KeyFor("");
    assert KeyFor(a)[|prefix|..] == Lower(a) && KeyFor(b)[|prefix|..] == Lower(b);
  }

  /** The addresses of this page load's calls, in call order. */
  function Callers(steps: seq<Step>): seq<string>
    decreases |steps|
  {
    if steps == [] then []
    else
      var before := Callers(steps[..|steps| - 1]);
      match steps[|steps| - 1]
      case CallNext(address) => before + [address]
      case Reload(_, _) => []
      case _ => before
  }

  lemma KeysStay(s: System, step: Step)
    requires !step.CallNext? && !step.Reload?
    ensures var now := Apply(s, step).allocator.jobs;
      |now| == |s.allocator.jobs| && forall i :: 0 <= i < |now| ==> now[i].key == s.allocator.jobs[i].key
  {
  }

  /** Job i is of caller i, under the key of its address. */
  predicate OwnKeys(jobs: seq<Job>, callers: seq<string>) {
    |jobs| == |callers| && forall i :: 0 <= i < |jobs| ==> jobs[i].key == KeyFor(callers[i])
  }

  lemma {:induction false} CallersOwnTheJobs(storage: map<string, string>, steps: seq<Step>)
    ensures OwnKeys(Run(storage, steps).allocator.jobs, Callers(steps))
    decreases |steps|
  {
    if steps != [] {
      var before, step := steps[..|steps| - 1], steps[|steps| - 1];
      CallersOwnTheJobs(storage, before);
      if !step.CallNext? && !step.Reload? { KeysStay(Run(storage, before), step); }
    }
  }

  /** The next step is one of a call by this wallet. */
  predicate IsOwn(steps: seq<Step>, i: nat, address: string) {
    i < |Callers(steps)| && SameWallet(Callers(steps)[i], address)
  }

  /** The nonces that calls by this wallet have returned, over all page loads. */
  function NoncesOf(storage: map<string, string>, steps: seq<Step>, address: string): seq<int>
    decreases |steps|
  {
    if steps == [] then []
    else
      var before := steps[..|steps| - 1];
      var s := Run(storage, before);
      NoncesOf(storage, before, address)
      + match steps[|steps| - 1]
        case SetSucceeds(i) => if AwaitsSet(s, i) && IsOwn(before, i, address) then [s.allocator.jobs[i].current] else []
        case _ => []
  }

  /** The event a step is for this wallet's calls, if it is one at all. */
  function OwnEvent(s: System, before: seq<Step>, step: Step, address: string): Option<Event> {
    match step
    case CallNext(_) => None
    case Begin(i) => if CanStart(s.allocator, i) && IsOwn(before, i, address) then Some(Began) else None
    case GetAnswers(i) => if AwaitsGet(s, i) && IsOwn(before, i, address) then Some(Got) else None
    case GetFails(i) => if AwaitsGet(s, i) && IsOwn(before, i, address) then Some(GetFailed) else None
    case SetSucceeds(i) => if AwaitsSet(s, i) && IsOwn(before, i, address) then Some(SetDone) else None
    case SetFails(i, applied) => if AwaitsSet(s, i) && IsOwn(before, i, address) then Some(SetFailed(applied)) else None
    case Reload(i, applied) => Some(Reloaded(applied && AwaitsSet(s, i) && IsOwn(before, i, address)))
  }

  function OwnEvents(storage: map<string, string>, steps: seq<Step>, address: string): seq<Event>
    decreases |steps|
  {
    if steps == [] then []
    else
      var before := steps[..|steps| - 1];
      OwnEvents(storage, before, address)
      + match OwnEvent(Run(storage, before), before, steps[|steps| - 1], address) case None => [] case Some(e) => [e]
  }

  lemma OwnIsKeyed(storage: map<string, string>, steps: seq<Step>, i: nat, address: string)
    requires i < |Run(storage, steps).allocator.jobs|
    ensures IsOwn(steps, i, address) <==> Run(storage, steps).allocator.jobs[i].key == KeyFor(address)
  {
    CallersOwnTheJobs(storage, steps);
    KeyForIff(Callers(steps)[i], address);
  }

  lemma OwnEventIsKeyed(storage: map<string, string>, before: seq<Step>, step: Step, address: string)
    ensures OwnEvent(Run(storage, before), before, step, address) == EventFor(Run(storage, before), step, KeyFor(address))
  {
    if !step.CallNext? && step.i < |Run(storage, before).allocator.jobs| {
      OwnIsKeyed(storage, before, step.i, address);
    }
  }

  lemma {:induction false} OwnEventsAreKeyed(storage: map<string, string>, steps: seq<Step>, address: string)
    ensures OwnEvents(storage, steps, address) == EventsFor(storage, steps, KeyFor(address))
    decreases |steps|
  {
    if steps != [] {
      OwnEventsAreKeyed(storage, steps[..|steps| - 1], address);
      OwnEventIsKeyed(storage, steps[..|steps| - 1], steps[|steps| - 1], address);
    }
  }

  lemma IssuedByStep(s: System, step: Step, key: string)
    ensures IssuedFor(Apply(s, step).issued, key) == IssuedFor(s.issued, key) +
      if step.SetSucceeds? && AwaitsSet(s, step.i) && s.allocator.jobs[step.i].key == key
      then [s.allocator.jobs[step.i].current] else []
  {
    if step.SetSucceeds? && AwaitsSet(s, step.i) {
      IssuedAppend(s.issued, Issue(s.allocator.jobs[step.i].key, s.allocator.jobs[step.i].current), key);
    }
  }

  lemma {:induction false} NoncesAreKeyed(storage: map<string, string>, steps: seq<Step>, address: string)
    ensures NoncesOf(storage, steps, address) == IssuedFor(Run(storage, steps).issued, KeyFor(address))
    decreases |steps|
  {
    if steps != [] {
      var before, step := steps[..|steps| - 1], steps[|steps| - 1];
      NoncesAreKeyed(storage, before, address);
      IssuedByStep(Run(storage, before), step, KeyFor(address));
      if step.SetSucceeds? && AwaitsSet(Run(storage, before), step.i) { OwnIsKeyed(storage, before, step.i, address); }
    }
  }

  /** One wallet's failures never affect another's sequence: runs that agree on what happens to a wallet's own calls and
      on its stored value hand it the same nonces, whatever any other wallet calls, reads, writes or fails. */
  lemma WalletsAreIsolated(storage1: map<string, string>, steps1: seq<Step>, storage2: map<string, string>, steps2: seq<Step>,
                           address: string)
    requires Lookup(storage1, KeyFor(address)) == Lookup(storage2, KeyFor(address))
    requires OwnEvents(storage1, steps1, address) == OwnEvents(storage2, steps2, address)
    ensures NoncesOf(storage1, steps1, address) == NoncesOf(storage2, steps2, address)
  {
    OwnEventsAreKeyed(storage1, steps1, address);
    OwnEventsAreKeyed(storage2, steps2, address);
    Isolation(storage1, steps1, storage2, steps2, KeyFor(address));
    NoncesAreKeyed(storage1, steps1, address);
    NoncesAreKeyed(storage2, steps2, address);
  }

  /** A wallet's nonces are those of its own calls replayed alone, over one counter and one stored value. */
  lemma WalletAlone(storage: map<string, string>, steps: seq<Step>, address: string)
    ensures NoncesOf(storage, steps, address)
         == Replay(View(None, Lookup(storage, KeyFor(address)), Idle, []), OwnEvents(storage, steps, address)).issued
  {
    OwnEventsAreKeyed(storage, steps, address);
    ProjectsToAlone(storage, steps, KeyFor(address));
    NoncesAreKeyed(storage, steps, address);
  }

  predicate IssuedAt(issued: seq<Issue>, key: string, nonce: int, n: nat) {
    n < |issued| && issued[n] == Issue(key, nonce)
  }

  ghost predicate WasIssued(issued: seq<Issue>, key: string, nonce: int) { exists n: nat :: IssuedAt(issued, key, nonce, n) }

  lemma {:induction false} AllWereIssued(issued: seq<Issue>, key: string)
    ensures forall i :: 0 <= i < |IssuedFor(issued, key)| ==> WasIssued(issued, key, IssuedFor(issued, key)[i])
  {
    if issued != [] {
      var m := |issued| - 1;
      AllWereIssued(issued[..m], key);
      var before, r := IssuedFor(issued[..m], key), IssuedFor(issued, key);
      forall i | 0 <= i < |r| ensures WasIssued(issued, key, r[i]) {
        if i < |before| {
          var n: nat :| IssuedAt(issued[..m], key, before[i], n);
          assert IssuedAt(issued, key, r[i], n);
        } else {
          assert IssuedAt(issued, key, r[i], m);
        }
      }
    }
  }

  predicate StrictlyUp(r: seq<int>) { forall i, j :: 0 <= i < j < |r| ==> r[i] < r[j] }

  lemma {:induction false} IssuedIncreases(issued: seq<Issue>, key: string)
    requires Increasing(issued)
    ensures StrictlyUp(IssuedFor(issued, key))
  {
    if issued != [] {
      var m := |issued| - 1;
      IssuedIncreases(issued[..m], key);
      AllWereIssued(issued[..m], key);
      var before, r := IssuedFor(issued[..m], key), IssuedFor(issued, key);
      forall i, j | 0 <= i < j < |r| ensures r[i] < r[j] {
        assert r[i] == before[i];
        if j < |before| {
          assert r[j] == before[j];
        } else {
          assert WasIssued(issued[..m], key, before[i]);
          var n: nat :| IssuedAt(issued[..m], key, before[i], n);
          assert issued[..m][n] == issued[n] && r[j] == issued[m].nonce;
          assert issued[n].nonce < issued[m].nonce;
          assert r[i] == issued[n].nonce;
        }
      }
    }
  }

  /** A wallet never gets a nonce twice: what its calls return strictly increases over the whole history, and is below
      what is stored for it. */
  lemma WalletNeverReissued(storage: map<string, string>, steps: seq<Step>, address: string)
    ensures var r := NoncesOf(storage, steps, address);
      var stored := Lookup(Run(storage, steps).storage, KeyFor(address));
      && StrictlyUp(r)
      && (r != [] ==> stored.Some? && ParseBigInt(stored.value).Some?)
      && (forall i :: 0 <= i < |r| ==> r[i] < ParseBigInt(stored.value).value)
  {
    NeverReissued(storage, steps);
    NoncesAreKeyed(storage, steps, address);
    var s := Run(storage, steps);
    IssuedIncreases(s.issued, KeyFor(address));
    AllWereIssued(s.issued, KeyFor(address));
    var r := NoncesOf(storage, steps, address);
    forall i | 0 <= i < |r| ensures Persisted(s, Issue(KeyFor(address), r[i])) {
      assert WasIssued(s.issued, KeyFor(address), r[i]);
      var n: nat :| IssuedAt(s.issued, KeyFor(address), r[i], n);
      assert Persisted(s, s.issued[n]);
    }
    if r != [] { assert Persisted(s, Issue(KeyFor(address), r[0])); }
  }

  // ---- the random allocator ----

  type Byte = b: int | 0 <= b < 256

  function Pow256(n: nat): nat {
    if n == 0 then 1 else 256 * Pow256(n - 1)
  }

  function BigEndian(bytes: seq<Byte>): nat {
    if bytes == [] then 0 else BigEndian(bytes[..|bytes| - 1]) * 256 + bytes[|bytes| - 1]
  }

  method FoldBytes(bytes: seq<Byte>) returns (n: nat)
    ensures n == BigEndian(bytes)
  {
    n := 0;
    for i := 0 to |bytes|
      invariant n == BigEndian(bytes[..i])
    {
      n := n * 256 + bytes[i];
      assert bytes[..i + 1][..i] == bytes[..i];
    }
    assert bytes[..|bytes|] == bytes;
  }

  lemma {:induction false} BigEndianRange(bytes: seq<Byte>)
    ensures BigEndian(bytes) < Pow256(|bytes|)
  {
    if bytes != [] { BigEndianRange(bytes[..|bytes| - 1]); }
  }

  /** The fold loses no randomness: 32 bytes and nonces below 2^256 correspond one to one. */
  lemma {:induction false} FoldIsInjective(a: seq<Byte>, b: seq<Byte>)
    requires |a| == |b| && BigEndian(a) == BigEndian(b)
    ensures a == b
  {
    if a != [] {
      var n := |a|;
      assert a[n - 1] == BigEndian(a) % 256 && b[n - 1] == BigEndian(b) % 256;
      FoldIsInjective(a[..n - 1], b[..n - 1]);
      assert a == a[..n - 1] + [a[n - 1]] && b == b[..n - 1] + [b[n - 1]];
    }
  }
}
