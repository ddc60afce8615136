/** The EIP-1193 events derived from the client's state (provider/eip1193.ts), as the client's notifications drive them
    (client/client.ts). Listeners do not call back into the provider here. */
module Provider {
  import opened Wrappers

  datatype Event = Connect(chainId: int) | Disconnect | AccountsChanged(accounts: seq<string>) | ChainChanged(chainId: int)

  datatype Name = OnConnect | OnDisconnect | OnAccountsChanged | OnChainChanged | OtherName(name: string)

  function NameOf(e: Event): Name {
    match e
    case Connect(_) => OnConnect
    case Disconnect => OnDisconnect
    case AccountsChanged(_) => OnAccountsChanged
    case ChainChanged(_) => OnChainChanged
  }

  /** What the connection answers: its status, and the active account's address. */
  datatype Connection = Connection(status: bool, address: Option<string>)

  predicate Online(c: Connection) { c.status && c.address.Some? }

  function AccountsOf(address: Option<string>): seq<string> {
    if address.Some? then [address.value] else []
  }

  datatype Delivery = Delivery(listener: nat, event: Event)

  /** `log` is what was emitted, `deliveries` what each listener was called with. */
  datatype State = State(
    chainId: int,
    prevConnected: bool,
    prevAddr: Option<string>,
    listeners: Registry,
    log: seq<Event>,
    deliveries: seq<Delivery>)

  type Registry = map<Name, seq<nat>>

  function ListenersOf(registry: Registry, name: Name): seq<nat> {
    if name in registry then registry[name] else []
  }

  function Created(c: Connection, chainId: int): State {
    State(chainId, Online(c), c.address, map[], [], [])
  }

  /** The listeners are called in order; one that throws ends the loop. */
  function Deliver(listeners: seq<nat>, e: Event, throwing: set<nat>): seq<Delivery> {
    if listeners == [] then []
    else if listeners[0] in throwing then [Delivery(listeners[0], e)]
    else [Delivery(listeners[0], e)] + Deliver(listeners[1..], e, throwing)
  }

  predicate Throws(listeners: seq<nat>, throwing: set<nat>) {
    exists i :: 0 <= i < |listeners| && listeners[i] in throwing
  }

  function Emit(s: State, e: Event, throwing: set<nat>): State {
    s.(log := s.log + [e], deliveries := s.deliveries + Deliver(ListenersOf(s.listeners, NameOf(e)), e, throwing))
  }

  /** What one notification has to say. */
  function EventsFor(s: State, now: Connection): seq<Event> {
    (if Online(now) && !s.prevConnected then [Connect(s.chainId)] else [])
    + (if !Online(now) && s.prevConnected then [Disconnect] else [])
    + (if now.address != s.prevAddr then [AccountsChanged(AccountsOf(now.address))] else [])
  }

  /** Emitted one after another, up to the first that throws. */
  function EmitAll(s: State, events: seq<Event>, throwing: set<nat>): State
    decreases |events|
  {
    if events == [] then s
    else if ThrowsAt(s.listeners, events[0], throwing) then Emit(s, events[0], throwing)
    else EmitAll(Emit(s, events[0], throwing), events[1..], throwing)
  }

  predicate ThrowsAt(registry: Registry, e: Event, throwing: set<nat>) {
    Throws(ListenersOf(registry, NameOf(e)), throwing)
  }

  predicate Aborts(registry: Registry, events: seq<Event>, throwing: set<nat>) {
    exists i :: 0 <= i < |events| && ThrowsAt(registry, events[i], throwing)
  }

  /** One notification; a throw leaves the remembered state as it was. */
  function Notified(s: State, now: Connection, throwing: set<nat>): State {
    var events := EventsFor(s, now);
    var emitted := EmitAll(s, events, throwing);
    if Aborts(s.listeners, events, throwing) then emitted else emitted.(prevConnected := Online(now), prevAddr := now.address)
  }

  function Added(listeners: seq<nat>, l: nat): seq<nat> {
    if l in listeners then listeners else listeners + [l]
  }

  function Removed(listeners: seq<nat>, l: nat): seq<nat> {
    if listeners == [] then [] else (if listeners[0] == l then [] else [listeners[0]]) + Removed(listeners[1..], l)
  }

  function On(s: State, name: Name, l: nat): State {
    s.(listeners := s.listeners[name := Added(ListenersOf(s.listeners, name), l)])
  }

  function RemoveListener(s: State, name: Name, l: nat): State {
    if name in s.listeners then s.(listeners := s.listeners[name := Removed(s.listeners[name], l)]) else s
  }

  function SwitchChain(s: State, chainId: int, throwing: set<nat>): State {
    Emit(s.(chainId := chainId), ChainChanged(chainId), throwing)
  }

  // ---- runs ----

  /** A notification reads the connection as it is at that moment, however it came to be so. */
  datatype Op =
    | Notify(now: Connection, throwing: set<nat>)
    | Attach(name: Name, listener: nat)
    | Detach(name: Name, listener: nat)
    | Switch(chainId: int, throwing: set<nat>)

  function Step(s: State, op: Op): State {
    match op
    case Notify(now, throwing) => Notified(s, now, throwing)
    case Attach(name, l) => On(s, name, l)
    case Detach(name, l) => RemoveListener(s, name, l)
    case Switch(chainId, throwing) => SwitchChain(s, chainId, throwing)
  }

  function Run(s: State, ops: seq<Op>): State {
    if ops == [] then s else Step(Run(s, ops[..|ops| - 1]), ops[|ops| - 1])
  }

  /** The notification is cut short: a listener of one of the events it has to emit throws. */
  predicate CutShort(s: State, op: Op) {
    op.Notify? && Aborts(s.listeners, EventsFor(s, op.now), op.throwing)
  }

  /** No notification of the run is cut short. */
  predicate Undisrupted(s: State, ops: seq<Op>) {
    forall i :: 0 <= i < |ops| ==> !CutShort(Run(s, ops[..i]), ops[i])
  }

  lemma UndisruptedPrefix(s: State, ops: seq<Op>, n: nat)
    requires Undisrupted(s, ops) && n <= |ops|
    ensures Undisrupted(s, ops[..n])
  {
    assert forall i :: 0 <= i < n ==> ops[..n][..i] == ops[..i];
  }

  // ---- the state a dapp derives from the events ----

  datatype Dapp = Dapp(connected: bool, accounts: seq<string>)

  function Apply(d: Dapp, e: Event): Dapp {
    match e
    case Connect(_) => d.(connected := true)
    case Disconnect => d.(connected := false)
    case AccountsChanged(accounts) => d.(accounts := accounts)
    case ChainChanged(_) => d
  }

  function Fold(d: Dapp, events: seq<Event>): Dapp {
    if events == [] then d else Apply(Fold(d, events[..|events| - 1]), events[|events| - 1])
  }

  function Remembered(s: State): Dapp { Dapp(s.prevConnected, AccountsOf(s.prevAddr)) }

  /** Every event says something new. */
  predicate Telling(d: Dapp, events: seq<Event>) {
    forall i :: 0 <= i < |events| && !events[i].ChainChanged? ==> Apply(Fold(d, events[..i]), events[i]) != Fold(d, events[..i])
  }

  lemma {:induction false} FoldAppend(d: Dapp, a: seq<Event>, b: seq<Event>)
    ensures Fold(d, a + b) == Fold(Fold(d, a), b)
  {
    if b == [] {
      assert a + b == a;
    } else {
      assert (a + b)[..|a + b| - 1] == a + b[..|b| - 1];
      FoldAppend(d, a, b[..|b| - 1]);
    }
  }

  lemma TellingAppend(d: Dapp, a: seq<Event>, b: seq<Event>)
    requires Telling(d, a) && Telling(Fold(d, a), b)
    ensures Telling(d, a + b)
  {
    forall i | 0 <= i < |a + b| && !(a + b)[i].ChainChanged?
      ensures Apply(Fold(d, (a + b)[..i]), (a + b)[i]) != Fold(d, (a + b)[..i])
    {
      if i < |a| {
        assert (a + b)[..i] == a[..i];
      } else {
        assert (a + b)[..i] == a + b[..i - |a|];
        FoldAppend(d, a, b[..i - |a|]);
      }
    }
  }

  lemma FoldOne(d: Dapp, e: Event)
    ensures Fold(d, [e]) == Apply(d, e)
    ensures Telling(d, [e]) <==> e.ChainChanged? || Apply(d, e) != d
  {
    assert [e][..0] == [];
    assert [e][0] == e;
  }

  lemma FoldTwo(d: Dapp, a: Event, b: Event)
    ensures Fold(d, [a, b]) == Apply(Apply(d, a), b)
    ensures Telling(d, [a]) && Telling(Apply(d, a), [b]) ==> Telling(d, [a, b])
  {
    assert [a] + [b] == [a, b];
    FoldOne(d, a);
    FoldOne(Apply(d, a), b);
    FoldAppend(d, [a], [b]);
    if Telling(d, [a]) && Telling(Apply(d, a), [b]) { TellingAppend(d, [a], [b]); }
  }

  function ChangeOf(s: State, now: Connection): Event { if Online(now) then Connect(s.chainId) else Disconnect }

  function AccountsEvent(now: Connection): Event { AccountsChanged(AccountsOf(now.address)) }

  lemma EventsShape(s: State, now: Connection)
    ensures EventsFor(s, now) ==
      if Online(now) != s.prevConnected then
        (if now.address != s.prevAddr then [ChangeOf(s, now), AccountsEvent(now)] else [ChangeOf(s, now)])
      else if now.address != s.prevAddr then [AccountsEvent(now)] else []
    ensures now.address != s.prevAddr ==> AccountsOf(now.address) != AccountsOf(s.prevAddr)
  {
    if now.address.Some? && s.prevAddr.Some? {
      assert AccountsOf(now.address)[0] == now.address.value && AccountsOf(s.prevAddr)[0] == s.prevAddr.value;
    }
  }

  /** What a notification says turns the remembered state into the present one, each event changing something. */
  lemma EventsTell(s: State, now: Connection)
    ensures Fold(Remembered(s), EventsFor(s, now)) == Dapp(Online(now), AccountsOf(now.address))
    ensures Telling(Remembered(s), EventsFor(s, now))
  {
    var d := Remembered(s);
    EventsShape(s, now);
    if Online(now) != s.prevConnected && now.address != s.prevAddr {
      FoldOne(d, ChangeOf(s, now));
      FoldOne(Apply(d, ChangeOf(s, now)), AccountsEvent(now));
      FoldTwo(d, ChangeOf(s, now), AccountsEvent(now));
    } else if Online(now) != s.prevConnected {
      FoldOne(d, ChangeOf(s, now));
    } else if now.address != s.prevAddr {
      FoldOne(d, AccountsEvent(now));
    }
  }

  lemma EmitAllStep(s: State, events: seq<Event>, throwing: set<nat>)
    requires events != []
    ensures EmitAll(s, events, throwing) ==
      if ThrowsAt(s.listeners, events[0], throwing) then Emit(s, events[0], throwing)
      else EmitAll(Emit(s, events[0], throwing), events[1..], throwing)
  {
  }

  lemma {:induction false} EmitAllUnlessAborted(s: State, events: seq<Event>, throwing: set<nat>)
    requires !Aborts(s.listeners, events, throwing)
    decreases |events|
    ensures var r := EmitAll(s, events, throwing);
      r.log == s.log + events && r.(log := s.log, deliveries := s.deliveries) == s
  {
    if events != [] {
      var t := Emit(s, events[0], throwing);
      assert forall i :: 0 <= i < |events[1..]| ==> events[1..][i] == events[i + 1];
      EmitAllUnlessAborted(t, events[1..], throwing);
      assert [events[0]] + events[1..] == events;
      Associate(s.log, [events[0]], events[1..]);
    }
  }

  /** The step emits what turns the remembered state into the new one, and every event of it tells. */
  lemma StepTells(s: State, op: Op) returns (events: seq<Event>)
    requires !CutShort(s, op)
    ensures Step(s, op).log == s.log + events
    ensures Fold(Remembered(s), events) == Remembered(Step(s, op)) && Telling(Remembered(s), events)
    ensures op.Notify? ==> Remembered(Step(s, op)) == Dapp(Online(op.now), AccountsOf(op.now.address))
  {
    match op
    case Notify(now, throwing) =>
      events := EventsFor(s, now);
      EventsTell(s, now);
      EmitAllUnlessAborted(s, events, throwing);
    case Switch(chainId, _) =>
      events := [ChainChanged(chainId)];
      FoldOne(Remembered(s), events[0]);
    case _ =>
      events := [];
      assert s.log + [] == s.log;
  }

  /** What a dapp replays is what the provider remembers. */
  predicate Together(d: Dapp, s: State) { Fold(d, s.log) == Remembered(s) }

  lemma StepReplays(d: Dapp, r: State, op: Op)
    requires Together(d, r) && Telling(d, r.log) && !CutShort(r, op)
    ensures Together(d, Step(r, op)) && Telling(d, Step(r, op).log)
  {
    var events := StepTells(r, op);
    FoldAppend(d, r.log, events);
    TellingAppend(d, r.log, events);
  }

  /** Replaying the events over the initial state yields exactly the state of the last notification, and every event
      changed something, in every run whose notifications all complete. */
  lemma {:induction false} EventsReplay(s: State, ops: seq<Op>)
    requires s.log == [] && Undisrupted(s, ops)
    ensures Together(Remembered(s), Run(s, ops))
    ensures Telling(Remembered(s), Run(s, ops).log)
  {
    if ops != [] {
      var n := |ops| - 1;
      UndisruptedPrefix(s, ops, n);
      EventsReplay(s, ops[..n]);
      assert !CutShort(Run(s, ops[..n]), ops[n]);
      StepReplays(Remembered(s), Run(s, ops[..n]), ops[n]);
    }
  }

  /** A provider starts from the connection it is created on: the first notification tells only what changed since. */
  lemma CreationIsRemembered(c: Connection, chainId: int, now: Connection, throwing: set<nat>)
    ensures var s := Created(c, chainId);
      && Remembered(s) == Dapp(c.status && c.address.Some?, AccountsOf(c.address)) && s.log == []
      && (now == c ==> Step(s, Notify(now, throwing)) == s)
      && (now.address != c.address ==> AccountsChanged(AccountsOf(now.address)) in EventsFor(s, now))
  {
    EventsShape(Created(c, chainId), now);
  }

  /** After a notification that completes, as all before it did, a dapp that replayed everything is connected exactly when
      the status is true and there is an account, and knows exactly that account. */
  lemma ReplayAfterNotify(s: State, ops: seq<Op>, now: Connection, throwing: set<nat>)
    requires s.log == [] && Undisrupted(s, ops + [Notify(now, throwing)])
    ensures Fold(Remembered(s), Run(s, ops + [Notify(now, throwing)]).log) == Dapp(Online(now), AccountsOf(now.address))
  {
    var op := Notify(now, throwing);
    var all := ops + [op];
    EventsReplay(s, all);
    assert all[..|ops|] == ops && all[|ops|] == op;
    var events := StepTells(Run(s, ops), op);
  }

  lemma {:induction false} KeepsKind(d: Dapp, log: seq<Event>, i: nat, j: nat)
    requires i < j <= |log| && (log[i].Connect? || log[i].Disconnect?)
    ensures log[i].Connect? && (forall m :: i < m < j ==> !log[m].Disconnect?) ==> Fold(d, log[..j]).connected
    ensures log[i].Disconnect? && (forall m :: i < m < j ==> !log[m].Connect?) ==> !Fold(d, log[..j]).connected
    decreases j
  {
    assert log[..j][..j - 1] == log[..j - 1];
    if i < j - 1 { KeepsKind(d, log, i, j - 1); }
  }

  /** connect and disconnect strictly alternate while notifications complete: between two of a kind there is one of the
      other. */
  lemma Alternate(s: State, ops: seq<Op>, i: nat, j: nat)
    requires s.log == [] && Undisrupted(s, ops) && i < j < |Run(s, ops).log|
    ensures var log := Run(s, ops).log;
      && (log[i].Connect? && log[j].Connect? ==> exists m :: i < m < j && log[m].Disconnect?)
      && (log[i].Disconnect? && log[j].Disconnect? ==> exists m :: i < m < j && log[m].Connect?)
  {
    EventsReplay(s, ops);
    var log := Run(s, ops).log;
    if log[i].Connect? || log[i].Disconnect? { KeepsKind(Remembered(s), log, i, j); }
  }

  // ---- a listener that throws ----

  lemma AbortsLater(registry: Registry, events: seq<Event>, throwing: set<nat>)
    requires Aborts(registry, events, throwing) && !ThrowsAt(registry, events[0], throwing)
    ensures Aborts(registry, events[1..], throwing)
  {
    var i :| 0 <= i < |events| && ThrowsAt(registry, events[i], throwing);
    assert events[1..][i - 1] == events[i];
  }

  lemma LogInTurn(log: seq<Event>, events: seq<Event>, rest: nat)
    requires events != [] && rest <= |events| - 1
    ensures log + [events[0]] + events[1..][..rest] == log + events[..rest + 1]
  {
    assert events[..rest + 1] == [events[0]] + events[1..][..rest];
  }

  lemma {:induction false} AbortedEmitsPrefix(s: State, events: seq<Event>, throwing: set<nat>) returns (k: nat)
    requires Aborts(s.listeners, events, throwing)
    ensures 0 < k <= |events|
    ensures EmitAll(s, events, throwing).log == s.log + events[..k]
    ensures EmitAll(s, events, throwing).prevConnected == s.prevConnected
    ensures EmitAll(s, events, throwing).prevAddr == s.prevAddr
    decreases |events|
  {
    EmitAllStep(s, events, throwing);
    if ThrowsAt(s.listeners, events[0], throwing) {
      k := 1;
      assert events[..1] == [events[0]];
    } else {
      AbortsLater(s.listeners, events, throwing);
      var rest := AbortedEmitsPrefix(Emit(s, events[0], throwing), events[1..], throwing);
      k := rest + 1;
      LogInTurn(s.log, events, rest);
    }
  }

  lemma FirstChanges(s: State, now: Connection)
    requires EventsFor(s, now) != []
    ensures Apply(Remembered(s), EventsFor(s, now)[0]) != Remembered(s)
  {
    EventsShape(s, now);
  }

  lemma BothChange(s: State, now: Connection)
    requires |EventsFor(s, now)| == 2
    ensures Apply(Apply(Remembered(s), EventsFor(s, now)[0]), EventsFor(s, now)[1]) != Remembered(s)
  {
    EventsShape(s, now);
  }

  lemma PrefixDiffers(s: State, now: Connection, k: nat)
    requires 0 < k <= |EventsFor(s, now)|
    ensures Fold(Remembered(s), EventsFor(s, now)[..k]) != Remembered(s)
  {
    var events := EventsFor(s, now);
    if k == 1 {
      FirstChanges(s, now);
      assert events[..1] == [events[0]];
      FoldOne(Remembered(s), events[0]);
    } else {
      BothChange(s, now);
      assert events[..2] == [events[0], events[1]];
      FoldTwo(Remembered(s), events[0], events[1]);
    }
  }

  /** A notification keeps the replayed state and the remembered state together exactly when no listener of what it
      emits throws. */
  lemma TogetherIff(d: Dapp, s: State, now: Connection, throwing: set<nat>)
    requires Together(d, s)
    ensures Together(d, Notified(s, now, throwing)) <==> !Aborts(s.listeners, EventsFor(s, now), throwing)
  {
    var events := EventsFor(s, now);
    if Aborts(s.listeners, events, throwing) {
      var k := AbortedEmitsPrefix(s, events, throwing);
      FoldAppend(d, s.log, events[..k]);
      PrefixDiffers(s, now, k);
    } else {
      EmitAllUnlessAborted(s, events, throwing);
      EventsTell(s, now);
      FoldAppend(d, s.log, events);
    }
  }

  lemma EmitOne(s: State, e: Event, throwing: set<nat>)
    ensures EmitAll(s, [e], throwing) == Emit(s, e, throwing)
    ensures Aborts(s.listeners, [e], throwing) <==> ThrowsAt(s.listeners, e, throwing)
  {
    if ThrowsAt(s.listeners, e, throwing) { assert ThrowsAt(s.listeners, [e][0], throwing); }
  }

  lemma EmitTwo(s: State, a: Event, b: Event, throwing: set<nat>)
    ensures EmitAll(s, [a, b], throwing)
         == if ThrowsAt(s.listeners, a, throwing) then Emit(s, a, throwing) else Emit(Emit(s, a, throwing), b, throwing)
    ensures Aborts(s.listeners, [a, b], throwing) <==> ThrowsAt(s.listeners, a, throwing) || ThrowsAt(s.listeners, b, throwing)
  {
    assert [a, b][1..] == [b];
    EmitOne(Emit(s, a, throwing), b, throwing);
    assert [a, b][0] == a && [a, b][1] == b;
  }

  ghost predicate TogetherThroughout(s: State, ops: seq<Op>) {
    forall i: nat | i <= |ops| :: Together(Remembered(s), Run(s, ops[..i]))
  }

  lemma UndisruptedStaysTogether(s: State, ops: seq<Op>)
    requires s.log == [] && Undisrupted(s, ops)
    ensures TogetherThroughout(s, ops)
  {
    forall i: nat | i <= |ops| ensures Together(Remembered(s), Run(s, ops[..i])) {
      UndisruptedPrefix(s, ops, i);
      EventsReplay(s, ops[..i]);
    }
  }

  lemma CutShortParts(s: State, ops: seq<Op>, i: nat)
    requires i < |ops| && CutShort(Run(s, ops[..i]), ops[i])
    ensures !TogetherThroughout(s, ops)
  {
    assert ops[..i + 1][..i] == ops[..i];
    if Together(Remembered(s), Run(s, ops[..i])) {
      TogetherIff(Remembered(s), Run(s, ops[..i]), ops[i].now, ops[i].throwing);
      assert !Together(Remembered(s), Run(s, ops[..i + 1]));
    }
  }

  /** Over a whole run: replayed and remembered state agree after every step exactly when no notification is cut short. */
  lemma TogetherThroughoutIff(s: State, ops: seq<Op>)
    requires s.log == []
    ensures TogetherThroughout(s, ops) <==> Undisrupted(s, ops)
  {
    if Undisrupted(s, ops) {
      UndisruptedStaysTogether(s, ops);
    } else {
      var i: nat :| i < |ops| && CutShort(Run(s, ops[..i]), ops[i]);
      CutShortParts(s, ops, i);
    }
  }

  lemma FirstConnectThrows(address: string, l: nat)
    ensures var s := On(Created(Connection(false, None), 1), OnConnect, l);
      Notified(s, Connection(true, Some(address)), {l}) == Emit(s, Connect(1), {l})
  {
    var s := On(Created(Connection(false, None), 1), OnConnect, l);
    var now := Connection(true, Some(address));
    assert ListenersOf(s.listeners, OnConnect) == [l];
    assert ThrowsAt(s.listeners, Connect(1), {l}) by { assert [l][0] in {l}; }
    EventsShape(s, now);
    EmitTwo(s, Connect(1), AccountsEvent(now), {l});
  }

  /** A throw can repeat a connect: one at the first login, and the next notification says it again. */
  lemma ThrowRepeatsConnect(address: string, l: nat)
    ensures var s := On(Created(Connection(false, None), 1), OnConnect, l);
      var now := Connection(true, Some(address));
      Notified(Notified(s, now, {l}), now, {l}).log == [Connect(1), Connect(1)]
  {
    FirstConnectThrows(address, l);
    var s := On(Created(Connection(false, None), 1), OnConnect, l);
    var now := Connection(true, Some(address));
    var t := Notified(s, now, {l});
    assert ListenersOf(t.listeners, OnConnect) == [l];
    assert ThrowsAt(t.listeners, Connect(1), {l}) by { assert [l][0] in {l}; }
    EventsShape(t, now);
    EmitTwo(t, Connect(1), AccountsEvent(now), {l});
  }

  /** A throw can lose a disconnect for good: a connect listener throws at login, and the logout then says nothing. */
  lemma ThrowLosesDisconnect(address: string, l: nat)
    ensures var s := On(Created(Connection(false, None), 1), OnConnect, l);
      var online := Notified(s, Connection(true, Some(address)), {l});
      var offline := Notified(online, Connection(false, None), {});
      offline.log == [Connect(1)] && Fold(Remembered(s), offline.log).connected
  {
    FirstConnectThrows(address, l);
    var s := On(Created(Connection(false, None), 1), OnConnect, l);
    assert Notified(s, Connection(true, Some(address)), {l}).log == [Connect(1)];
    FoldOne(Remembered(s), Connect(1));
  }

  // ---- the chain ----

  /** The chain last switched to. */
  function LatestChain(first: int, log: seq<Event>): int {
    if log == [] then first
    else if log[|log| - 1].ChainChanged? then log[|log| - 1].chainId
    else LatestChain(first, log[..|log| - 1])
  }

  /** Every connect names the chain last switched to before it. */
  predicate ConnectsName(first: int, log: seq<Event>) {
    forall i :: 0 <= i < |log| && log[i].Connect? ==> log[i].chainId == LatestChain(first, log[..i])
  }

  predicate ChainInv(first: int, s: State) {
    s.chainId == LatestChain(first, s.log) && ConnectsName(first, s.log)
  }

  lemma LogOne(first: int, log: seq<Event>, e: Event)
    requires ConnectsName(first, log) && (e.Connect? ==> e.chainId == LatestChain(first, log))
    ensures ConnectsName(first, log + [e])
    ensures LatestChain(first, log + [e]) == if e.ChainChanged? then e.chainId else LatestChain(first, log)
  {
    var all := log + [e];
    assert all[..|log|] == log;
    assert forall i :: 0 <= i < |log| ==> all[..i] == log[..i];
  }

  lemma {:induction false} EmitAllKeepsChain(first: int, s: State, events: seq<Event>, throwing: set<nat>)
    requires ChainInv(first, s)
    requires forall i :: 0 <= i < |events| ==> !events[i].ChainChanged? && (events[i].Connect? ==> events[i].chainId == s.chainId)
    ensures ChainInv(first, EmitAll(s, events, throwing)) && EmitAll(s, events, throwing).chainId == s.chainId
    decreases |events|
  {
    if events != [] {
      EmitAllStep(s, events, throwing);
      LogOne(first, s.log, events[0]);
      if !ThrowsAt(s.listeners, events[0], throwing) {
        EmitAllKeepsChain(first, Emit(s, events[0], throwing), events[1..], throwing);
      }
    }
  }

  lemma StepKeepsChain(first: int, s: State, op: Op)
    requires ChainInv(first, s)
    ensures ChainInv(first, Step(s, op))
  {
    match op
    case Notify(now, throwing) =>
      EventsShape(s, now);
      EmitAllKeepsChain(first, s, EventsFor(s, now), throwing);
    case Switch(chainId, _) => LogOne(first, s.log, ChainChanged(chainId));
    case _ =>
  }

  /** In every run, whoever throws, the provider's chain is the one last switched to, and every connect names the chain
      as it was then. */
  lemma {:induction false} ChainFollows(s: State, ops: seq<Op>)
    requires s.log == []
    ensures ChainInv(s.chainId, Run(s, ops))
  {
    if ops != [] {
      ChainFollows(s, ops[..|ops| - 1]);
      StepKeepsChain(s.chainId, Run(s, ops[..|ops| - 1]), ops[|ops| - 1]);
    }
  }

  /** Every switch is announced, with the chain switched to. */
  lemma SwitchIsAnnounced(s: State, chainId: int, throwing: set<nat>)
    ensures var t := Step(s, Switch(chainId, throwing));
      t.chainId == chainId && t.log == s.log + [ChainChanged(chainId)]
  {
  }

  // ---- what one listener hears ----

  function Received(deliveries: seq<Delivery>, l: nat): seq<Event> {
    if deliveries == [] then []
    else
      var last := deliveries[|deliveries| - 1];
      Received(deliveries[..|deliveries| - 1], l) + if last.listener == l then [last.event] else []
  }

  /** The events of these names. */
  function Heard(events: seq<Event>, names: set<Name>): seq<Event> {
    if events == [] then []
    else
      var last := events[|events| - 1];
      Heard(events[..|events| - 1], names) + if NameOf(last) in names then [last] else []
  }

  predicate NoDuplicates(listeners: seq<nat>) {
    forall i, j :: 0 <= i < j < |listeners| ==> listeners[i] != listeners[j]
  }

  ghost predicate Wellformed(registry: Registry) { forall n :: NoDuplicates(ListenersOf(registry, n)) }

  ghost predicate AttachedTo(registry: Registry, l: nat, names: set<Name>) {
    forall n :: l in ListenersOf(registry, n) <==> n in names
  }

  predicate Mentioned(op: Op, l: nat) { (op.Attach? || op.Detach?) && op.listener == l }

  /** The op leaves this listener attached as it is, and no other listener throws in it. */
  predicate Undisturbing(op: Op, l: nat) {
    !Mentioned(op, l) && ((op.Notify? || op.Switch?) ==> op.throwing <= {l})
  }

  predicate Undisturbed(ops: seq<Op>, l: nat) {
    forall i :: 0 <= i < |ops| ==> Undisturbing(ops[i], l)
  }

  lemma {:induction false} ReceivedAppend(a: seq<Delivery>, b: seq<Delivery>, l: nat)
    ensures Received(a + b, l) == Received(a, l) + Received(b, l)
  {
    if b == [] {
      assert a + b == a;
    } else {
      assert (a + b)[..|a + b| - 1] == a + b[..|b| - 1];
      ReceivedAppend(a, b[..|b| - 1], l);
    }
  }

  lemma {:induction false} HeardAppend(a: seq<Event>, b: seq<Event>, names: set<Name>)
    ensures Heard(a + b, names) == Heard(a, names) + Heard(b, names)
  {
    if b == [] {
      assert a + b == a;
    } else {
      assert (a + b)[..|a + b| - 1] == a + b[..|b| - 1];
      HeardAppend(a, b[..|b| - 1], names);
    }
  }

  lemma {:induction false} DeliveredOnce(listeners: seq<nat>, e: Event, throwing: set<nat>, l: nat)
    requires NoDuplicates(listeners) && throwing <= {l}
    ensures Received(Deliver(listeners, e, throwing), l) == if l in listeners then [e] else []
  {
    if listeners != [] {
      var head := [Delivery(listeners[0], e)];
      assert head[..0] == [];
      if listeners[0] !in throwing {
        DeliveredOnce(listeners[1..], e, throwing, l);
        ReceivedAppend(head, Deliver(listeners[1..], e, throwing), l);
      }
      assert l in listeners <==> listeners[0] == l || l in listeners[1..];
      assert l in listeners[1..] ==> l != listeners[0];
    }
  }

  /** Between the two states the listener was called with exactly the events of these names that were emitted. */
  predicate HeardBetween(s: State, t: State, l: nat, names: set<Name>) {
    s.log <= t.log && Received(t.deliveries, l) == Received(s.deliveries, l) + Heard(t.log[|s.log|..], names)
  }

  lemma SuffixSplit<T>(a: seq<T>, m: seq<T>, t: seq<T>)
    requires a <= m <= t
    ensures a <= t && t[|a|..] == m[|a|..] + t[|m|..]
  {
  }

  lemma HeardInTurn(s: State, m: State, t: State, l: nat, names: set<Name>)
    requires HeardBetween(s, m, l, names) && HeardBetween(m, t, l, names)
    ensures HeardBetween(s, t, l, names)
  {
    SuffixSplit(s.log, m.log, t.log);
    HeardAppend(m.log[|s.log|..], t.log[|m.log|..], names);
    Associate(Received(s.deliveries, l), Heard(m.log[|s.log|..], names), Heard(t.log[|m.log|..], names));
  }

  lemma NothingHeard(s: State, t: State, l: nat, names: set<Name>)
    requires t.log == s.log && t.deliveries == s.deliveries
    ensures HeardBetween(s, t, l, names)
  {
    assert s.log[|s.log|..] == [];
  }

  lemma EmitHeard(s: State, e: Event, throwing: set<nat>, l: nat, names: set<Name>)
    requires Wellformed(s.listeners) && AttachedTo(s.listeners, l, names) && throwing <= {l}
    ensures HeardBetween(s, Emit(s, e, throwing), l, names)
  {
    var called := ListenersOf(s.listeners, NameOf(e));
    DeliveredOnce(called, e, throwing, l);
    ReceivedAppend(s.deliveries, Deliver(called, e, throwing), l);
    assert Emit(s, e, throwing).log[|s.log|..] == [e];
    assert [e][..0] == [];
  }

  lemma {:induction false} EmitAllHeard(s: State, events: seq<Event>, throwing: set<nat>, l: nat, names: set<Name>)
    requires Wellformed(s.listeners) && AttachedTo(s.listeners, l, names) && throwing <= {l}
    ensures HeardBetween(s, EmitAll(s, events, throwing), l, names)
    ensures EmitAll(s, events, throwing).listeners == s.listeners
    decreases |events|
  {
    if events == [] {
      NothingHeard(s, s, l, names);
    } else {
      var t := Emit(s, events[0], throwing);
      EmitAllStep(s, events, throwing);
      EmitHeard(s, events[0], throwing, l, names);
      if !ThrowsAt(s.listeners, events[0], throwing) {
        EmitAllHeard(t, events[1..], throwing, l, names);
        HeardInTurn(s, t, EmitAll(s, events, throwing), l, names);
      }
    }
  }

  lemma NoDuplicatesCons(x: nat, rest: seq<nat>)
    ensures NoDuplicates([x] + rest) <==> x !in rest && NoDuplicates(rest)
  {
    var all := [x] + rest;
    assert forall i :: 0 <= i < |rest| ==> all[i + 1] == rest[i];
    if x in rest {
      var i :| 0 <= i < |rest| && rest[i] == x;
      assert all[0] == all[i + 1];
      assert !NoDuplicates(all);
    }
  }

  lemma {:induction false} RemovedMembers(listeners: seq<nat>, l: nat)
    ensures forall m :: m in Removed(listeners, l) <==> m in listeners && m != l
    ensures NoDuplicates(listeners) ==> NoDuplicates(Removed(listeners, l))
  {
    if listeners != [] {
      RemovedMembers(listeners[1..], l);
      assert listeners == [listeners[0]] + listeners[1..];
      assert forall m :: m in listeners <==> m == listeners[0] || m in listeners[1..];
      NoDuplicatesCons(listeners[0], listeners[1..]);
      NoDuplicatesCons(listeners[0], Removed(listeners[1..], l));
    }
  }

  lemma RegistryKept(s: State, op: Op, l: nat, names: set<Name>)
    requires Wellformed(s.listeners) && AttachedTo(s.listeners, l, names) && !Mentioned(op, l) && (op.Attach? || op.Detach?)
    ensures Wellformed(Step(s, op).listeners) && AttachedTo(Step(s, op).listeners, l, names)
  {
    var t := Step(s, op);
    var had := ListenersOf(s.listeners, op.name);
    RemovedMembers(had, op.listener);
    assert NoDuplicates(had);
    forall n ensures NoDuplicates(ListenersOf(t.listeners, n)) && (l in ListenersOf(t.listeners, n) <==> l in ListenersOf(s.listeners, n)) {
      assert n != op.name ==> ListenersOf(t.listeners, n) == ListenersOf(s.listeners, n);
    }
  }

  /** Attaching a listener to a name, or detaching it, changes just that, and calls nobody. */
  lemma AttachmentFollows(s: State, op: Op, l: nat, names: set<Name>)
    requires Wellformed(s.listeners) && AttachedTo(s.listeners, l, names) && Mentioned(op, l)
    ensures var t := Step(s, op);
      && Wellformed(t.listeners) && t == s.(listeners := t.listeners)
      && AttachedTo(t.listeners, l, if op.Attach? then names + {op.name} else names - {op.name})
  {
    var t := Step(s, op);
    var had := ListenersOf(s.listeners, op.name);
    RemovedMembers(had, l);
    assert NoDuplicates(had);
    forall n ensures NoDuplicates(ListenersOf(t.listeners, n))
      && (l in ListenersOf(t.listeners, n) <==> if n == op.name then op.Attach? else l in ListenersOf(s.listeners, n)) {
      assert n != op.name ==> ListenersOf(t.listeners, n) == ListenersOf(s.listeners, n);
    }
  }

  /** A listener taken off the one name it had is never called again, whatever the others do. */
  lemma DetachedHearsNothing(s: State, name: Name, l: nat, ops: seq<Op>)
    requires Wellformed(s.listeners) && AttachedTo(s.listeners, l, {name}) && Undisturbed(ops, l)
    ensures var t := Step(s, Detach(name, l)); Received(Run(t, ops).deliveries, l) == Received(s.deliveries, l)
  {
    var op := Detach(name, l);
    AttachmentFollows(s, op, l, {name});
    var t := Step(s, op);
    assert {name} - {name} == {};
    LateListenerHearsSuffix(t, ops, l, {});
    HearsNone(Run(t, ops).log[|t.log|..]);
  }

  lemma {:induction false} HearsNone(events: seq<Event>)
    ensures Heard(events, {}) == []
  {
    if events != [] { HearsNone(events[..|events| - 1]); }
  }

  lemma StepHeard(s: State, op: Op, l: nat, names: set<Name>)
    requires Wellformed(s.listeners) && AttachedTo(s.listeners, l, names) && Undisturbing(op, l)
    ensures var t := Step(s, op);
      Wellformed(t.listeners) && AttachedTo(t.listeners, l, names) && HeardBetween(s, t, l, names)
  {
    match op
    case Notify(now, throwing) =>
      EmitAllHeard(s, EventsFor(s, now), throwing, l, names);
    case Switch(chainId, throwing) =>
      EmitHeard(s.(chainId := chainId), ChainChanged(chainId), throwing, l, names);
    case _ =>
      RegistryKept(s, op, l, names);
      NothingHeard(s, Step(s, op), l, names);
  }

  /** A listener hears the stream from where it joined, as long as it stays attached as it is and no other listener
      throws: once each, in order, every event of the names it is attached to, and nothing else. */
  lemma {:induction false} LateListenerHearsSuffix(s: State, ops: seq<Op>, l: nat, names: set<Name>)
    requires Wellformed(s.listeners) && AttachedTo(s.listeners, l, names) && Undisturbed(ops, l)
    ensures var t := Run(s, ops);
      Wellformed(t.listeners) && AttachedTo(t.listeners, l, names) && HeardBetween(s, t, l, names)
  {
    if ops == [] {
      NothingHeard(s, s, l, names);
    } else {
      var before, op := ops[..|ops| - 1], ops[|ops| - 1];
      LateListenerHearsSuffix(s, before, l, names);
      StepHeard(Run(s, before), op, l, names);
      HeardInTurn(s, Run(s, before), Run(s, ops), l, names);
    }
  }

  // ---- the object ----

  /** The provider as its closure runs. */
  class Eip1193Provider {
    var chainId: int
    var prevConnected: bool
    var prevAddr: Option<string>
    var listeners: Registry
    var log: seq<Event>
    var deliveries: seq<Delivery>

    function Abs(): State
      reads this
    {
      State(chainId, prevConnected, prevAddr, listeners, log, deliveries)
    }

    constructor (c: Connection, defaultChainId: int)
      ensures Abs() == Created(c, defaultChainId)
    {
      chainId := defaultChainId;
      prevConnected := Online(c);
      prevAddr := c.address;
      listeners := map[];
      log, deliveries := [], [];
    }

    method EmitEvent(e: Event, throwing: set<nat>) returns (ok: bool)
      modifies this
      ensures Abs() == Emit(old(Abs()), e, throwing)
      ensures ok <==> !ThrowsAt(old(listeners), e, throwing)
    {
      log := log + [e];
      var called := ListenersOf(listeners, NameOf(e));
      for i := 0 to |called|
        invariant forall j :: 0 <= j < i ==> called[j] !in throwing
        invariant Abs() == old(Abs()).(log := log, deliveries := deliveries) && log == old(log) + [e]
        invariant deliveries + Deliver(called[i..], e, throwing) == old(deliveries) + Deliver(called, e, throwing)
      {
        ghost var before, rest := deliveries, Deliver(called[i..], e, throwing);
        deliveries := deliveries + [Delivery(called[i], e)];
        assert called[i..][1..] == called[i + 1..];
        if called[i] in throwing {
          assert rest == [Delivery(called[i], e)];
          return false;
        }
        assert rest == [Delivery(called[i], e)] + Deliver(called[i + 1..], e, throwing);
      }
      ok := true;
    }

    method StateChanged(now: Connection, throwing: set<nat>) returns (ok: bool)
      modifies this
      ensures Abs() == Notified(old(Abs()), now, throwing)
      ensures ok <==> !Aborts(old(listeners), EventsFor(old(Abs()), now), throwing)
    {
      ghost var s := Abs();
      EventsShape(s, now);
      EmitOne(s, ChangeOf(s, now), throwing);
      EmitOne(s, AccountsEvent(now), throwing);
      EmitTwo(s, ChangeOf(s, now), AccountsEvent(now), throwing);
      var nowConnected, nowAddr := Online(now), now.address;
      if nowConnected && !prevConnected {
        var fine := EmitEvent(Connect(chainId), throwing);
        if !fine { return false; }
      }
      if !nowConnected && prevConnected {
        var fine := EmitEvent(Disconnect, throwing);
        if !fine { return false; }
      }
      if nowAddr != prevAddr {
        var fine := EmitEvent(AccountsChanged(AccountsOf(nowAddr)), throwing);
        if !fine { return false; }
      }
      prevConnected := nowConnected;
      prevAddr := nowAddr;
      ok := true;
    }

    method AddListener(name: Name, l: nat)
      modifies this
      ensures Abs() == On(old(Abs()), name, l)
    {
      if name !in listeners { listeners := listeners[name := []]; }
      if l !in listeners[name] { listeners := listeners[name := listeners[name] + [l]]; }
    }

    method DropListener(name: Name, l: nat)
      modifies this
      ensures Abs() == RemoveListener(old(Abs()), name, l)
    {
      if name in listeners { listeners := listeners[name := Removed(listeners[name], l)]; }
    }
  }
}
