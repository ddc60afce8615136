/** The recovery screen's state machine under any interleaving of its asynchronous calls
    (auth-popup/recover/ceremony.ts). Each call runs to its first await and leaves a task with the locals it captured;
    tasks are resumed in any order, with any answer. */
module RecoverCeremony {
  import opened Wrappers
  import opened Text

  /** One reading of the chain: the wallet it was made for, its guardians, and the nonce of a pending recovery. */
  datatype Snapshot = Snapshot(wallet: string, guardians: seq<string>, pending: Option<nat>)

  datatype Approval = Approval(guardian: string, promoteKey: string, nonce: nat, signature: string)

  datatype RecoverState =
    | Enter
    | Resolving
    | GuardianState(snap: Snapshot)
    | Approving(snap: Snapshot, promoteKey: string, error: Option<string>)
    | Submitted(approval: Approval)
    | Error(message: string)

  datatype Task =
    | ResolvingName
    | Reading(wallet: string)
    | Minting(snap: Snapshot)
    | Connecting(snap: Snapshot, promoteKey: string)
    | SigningConnected(snap: Snapshot, promoteKey: string, guardian: string)
    | SigningImported(snap: Snapshot, promoteKey: string)

  datatype Answer =
    | Failed(message: string)
    | Resolved(wallet: string)
    | ReadDone(guardians: seq<string>, pending: Option<nat>)
    | Minted(address: string)
    | Connected(address: string)
    | Signed(guardian: string, signature: string)

  datatype Event = EnterWallet | BeginApproval | ApproveConnected | ApproveImported | Resume(task: nat, answer: Answer)

  datatype Mint = Mint(snap: Snapshot, key: string)

  datatype Approved = Approved(snap: Snapshot, key: string, imported: bool, approval: Approval)

  /** The closure's state and its suspended calls; what was read, minted and approved so far. `mintCalls` lists the
      snapshots a passkey ceremony was started for, `rejectedMints` counts those that failed. */
  datatype World = World(
    state: RecoverState,
    tasks: seq<Task>,
    readings: set<Snapshot>,
    mintCalls: seq<Snapshot>,
    minted: seq<Mint>,
    rejectedMints: nat,
    approvals: seq<Approved>)

  const Fresh := World(Enter, [], {}, [], [], 0, [])

  const NO_GUARDIANS := "This wallet has no guardians configured — recovery is not available."

  function NonceFor(pending: Option<nat>): nat { if pending.Some? then pending.value else 0 }

  predicate InRoster(guardians: seq<string>, guardian: string) {
    exists i :: 0 <= i < |guardians| && Lower(guardians[i]) == Lower(guardian)
  }

  function Without(tasks: seq<Task>, i: nat): seq<Task>
    requires i < |tasks|
  {
    tasks[..i] + tasks[i + 1..]
  }

  function Approve(w: World, snap: Snapshot, key: string, guardian: string, signature: string, imported: bool): World {
    var approval := Approval(guardian, key, NonceFor(snap.pending), signature);
    w.(state := Submitted(approval), approvals := w.approvals + [Approved(snap, key, imported, approval)])
  }

  /** A task goes on; an answer that is not one it waits for changes nothing. */
  function Resumed(w: World, i: nat, a: Answer): World
    requires i < |w.tasks|
  {
    var v := w.(tasks := Without(w.tasks, i));
    match (w.tasks[i], a)
    case (ResolvingName, Failed(m)) => v.(state := Error(m))
    case (ResolvingName, Resolved(wallet)) => v.(tasks := v.tasks + [Reading(wallet)])
    case (Reading(_), Failed(m)) => v.(state := Error(m))
    case (Reading(wallet), ReadDone(guardians, pending)) =>
      var snap := Snapshot(wallet, guardians, pending);
      v.(state := GuardianState(snap), readings := v.readings + {snap})
    case (Minting(_), Failed(_)) => v.(rejectedMints := v.rejectedMints + 1)
    case (Minting(snap), Minted(address)) =>
      v.(state := Approving(snap, address, None), minted := v.minted + [Mint(snap, address)])
    case (Connecting(snap, key), Failed(m)) => v.(state := Approving(snap, key, Some(m)))
    case (Connecting(snap, key), Connected(guardian)) =>
      if InRoster(snap.guardians, guardian) then v.(tasks := v.tasks + [SigningConnected(snap, key, guardian)])
      else v.(state := Approving(snap, key, Some(guardian + " is not a guardian of this wallet")))
    case (SigningConnected(snap, key, _), Failed(m)) => v.(state := Approving(snap, key, Some(m)))
    case (SigningConnected(snap, key, guardian), Signed(_, signature)) => Approve(v, snap, key, guardian, signature, false)
    case (SigningImported(snap, key), Failed(m)) => v.(state := Approving(snap, key, Some(m)))
    case (SigningImported(snap, key), Signed(guardian, signature)) => Approve(v, snap, key, guardian, signature, true)
    case _ => w
  }

  function Step(w: World, e: Event): World {
    match e
    case EnterWallet => w.(state := Resolving, tasks := w.tasks + [ResolvingName])
    case BeginApproval =>
      if !w.state.GuardianState? then w
      else if w.state.snap.guardians == [] then w.(state := Error(NO_GUARDIANS))
      else w.(tasks := w.tasks + [Minting(w.state.snap)], mintCalls := w.mintCalls + [w.state.snap])
    case ApproveConnected =>
      if !w.state.Approving? then w else w.(tasks := w.tasks + [Connecting(w.state.snap, w.state.promoteKey)])
    case ApproveImported =>
      if !w.state.Approving? then w else w.(tasks := w.tasks + [SigningImported(w.state.snap, w.state.promoteKey)])
    case Resume(i, a) => if i < |w.tasks| then Resumed(w, i, a) else w
  }

  function Run(w: World, events: seq<Event>): World {
    if events == [] then w else Step(Run(w, events[..|events| - 1]), events[|events| - 1])
  }

  // ---- coherence ----

  /** The key was minted for this snapshot, which was read as one. */
  predicate Coherent(w: World, snap: Snapshot, key: string) {
    snap in w.readings && snap.guardians != [] && Mint(snap, key) in w.minted
  }

  predicate TaskCoherent(w: World, t: Task) {
    match t
    case ResolvingName => true
    case Reading(_) => true
    case Minting(snap) => snap in w.readings && snap.guardians != []
    case Connecting(snap, key) => Coherent(w, snap, key)
    case SigningConnected(snap, key, guardian) => Coherent(w, snap, key) && InRoster(snap.guardians, guardian)
    case SigningImported(snap, key) => Coherent(w, snap, key)
  }

  predicate StateCoherent(w: World) {
    match w.state
    case GuardianState(snap) => snap in w.readings
    case Approving(snap, key, _) => Coherent(w, snap, key)
    case Submitted(approval) => exists i :: 0 <= i < |w.approvals| && w.approvals[i].approval == approval
    case _ => true
  }

  /** An approval carries the key minted for its snapshot and that snapshot's nonce; a connected guardian is in the
      roster read. */
  predicate ApprovedCoherent(w: World, a: Approved) {
    && Coherent(w, a.snap, a.key)
    && a.approval.promoteKey == a.key
    && (a.snap.pending.None? ==> a.approval.nonce == 0)
    && (a.snap.pending.Some? ==> a.approval.nonce == a.snap.pending.value)
    && (!a.imported ==>
          exists i :: 0 <= i < |a.snap.guardians| && Lower(a.snap.guardians[i]) == Lower(a.approval.guardian))
  }

  predicate Inv(w: World) {
    && StateCoherent(w)
    && (forall i :: 0 <= i < |w.tasks| ==> TaskCoherent(w, w.tasks[i]))
    && (forall i :: 0 <= i < |w.approvals| ==> ApprovedCoherent(w, w.approvals[i]))
    && (forall i :: 0 <= i < |w.mintCalls| ==> w.mintCalls[i] in w.readings && w.mintCalls[i].guardians != [])
  }

  /** The same facts, and perhaps more. */
  predicate Grows(w: World, v: World) {
    w.readings <= v.readings && w.minted <= v.minted && w.approvals <= v.approvals
  }

  lemma GrowsKeeps(w: World, v: World)
    requires Inv(w) && Grows(w, v)
    ensures forall snap, key :: Coherent(w, snap, key) ==> Coherent(v, snap, key)
    ensures forall i :: 0 <= i < |w.tasks| ==> TaskCoherent(v, w.tasks[i])
    ensures forall i :: 0 <= i < |w.approvals| ==> ApprovedCoherent(v, w.approvals[i])
  {
    forall snap, key | Coherent(w, snap, key) ensures Coherent(v, snap, key) { }
  }

  lemma TasksKept(w: World, v: World, i: nat, added: seq<Task>)
    requires Inv(w) && Grows(w, v) && i < |w.tasks| && v.tasks == Without(w.tasks, i) + added
    requires forall j :: 0 <= j < |added| ==> TaskCoherent(v, added[j])
    ensures forall j :: 0 <= j < |v.tasks| ==> TaskCoherent(v, v.tasks[j])
  {
    GrowsKeeps(w, v);
    forall j | 0 <= j < |v.tasks| ensures TaskCoherent(v, v.tasks[j]) {
      assert v.tasks[j] == if j < i then w.tasks[j] else if j < |w.tasks| - 1 then w.tasks[j + 1] else added[j - (|w.tasks| - 1)];
    }
  }

  /** What a resumption adds to the tasks. */
  function Continuation(t: Task, a: Answer): seq<Task> {
    match (t, a)
    case (ResolvingName, Resolved(wallet)) => [Reading(wallet)]
    case (Connecting(snap, key), Connected(guardian)) =>
      if InRoster(snap.guardians, guardian) then [SigningConnected(snap, key, guardian)] else []
    case _ => []
  }

  lemma ResumedTasks(w: World, i: nat, a: Answer)
    requires i < |w.tasks|
    ensures Resumed(w, i, a) == w || Resumed(w, i, a).tasks == Without(w.tasks, i) + Continuation(w.tasks[i], a)
    ensures Grows(w, Resumed(w, i, a))
    ensures Resumed(w, i, a).mintCalls == w.mintCalls
  {
    assert Without(w.tasks, i) + [] == Without(w.tasks, i);
  }

  lemma ResumedApprovals(w: World, i: nat, a: Answer)
    requires Inv(w) && i < |w.tasks|
    ensures var v := Resumed(w, i, a);
      StateCoherent(v) && forall j :: 0 <= j < |v.approvals| ==> ApprovedCoherent(v, v.approvals[j])
  {
    var v := Resumed(w, i, a);
    ResumedTasks(w, i, a);
    GrowsKeeps(w, v);
    assert TaskCoherent(w, w.tasks[i]);
    if |v.approvals| > |w.approvals| { assert v.approvals[|w.approvals|].approval == v.state.approval; }
    if v.state.Submitted? && v.state == w.state {
      var j :| 0 <= j < |w.approvals| && w.approvals[j].approval == w.state.approval;
      assert v.approvals[j] == w.approvals[j];
    }
  }

  lemma ResumedKeepsInv(w: World, i: nat, a: Answer)
    requires Inv(w) && i < |w.tasks|
    ensures Inv(Resumed(w, i, a))
  {
    var v := Resumed(w, i, a);
    ResumedTasks(w, i, a);
    ResumedApprovals(w, i, a);
    if v != w {
      assert TaskCoherent(w, w.tasks[i]);
      GrowsKeeps(w, v);
      TasksKept(w, v, i, Continuation(w.tasks[i], a));
    }
  }

  lemma StepKeepsInv(w: World, e: Event)
    requires Inv(w)
    ensures Inv(Step(w, e))
  {
    match e
    case Resume(i, a) => if i < |w.tasks| { ResumedKeepsInv(w, i, a); }
    case _ => GrowsKeeps(w, Step(w, e));
  }

  /** Every reachable state is one coherent snapshot, and every approval carries it, under any interleaving. A wallet
      with no guardians never starts a passkey ceremony. */
  lemma {:induction false} AlwaysCoherent(events: seq<Event>)
    ensures Inv(Run(Fresh, events))
  {
    if events != [] {
      AlwaysCoherent(events[..|events| - 1]);
      StepKeepsInv(Run(Fresh, events[..|events| - 1]), events[|events| - 1]);
    }
  }

  /** The same, of the approval on screen. */
  lemma SubmittedIsCoherent(events: seq<Event>)
    requires Run(Fresh, events).state.Submitted?
    ensures var w := Run(Fresh, events);
      exists a: Approved :: a in w.approvals && a.approval == w.state.approval && ApprovedCoherent(w, a)
  {
    AlwaysCoherent(events);
  }

  // ---- one mint ----

  function MintingTasks(tasks: seq<Task>): nat {
    if tasks == [] then 0 else MintingTasks(tasks[..|tasks| - 1]) + Mintings(tasks[|tasks| - 1])
  }

  lemma {:induction false} MintingAppend(a: seq<Task>, b: seq<Task>)
    ensures MintingTasks(a + b) == MintingTasks(a) + MintingTasks(b)
  {
    if b == [] {
      assert a + b == a;
    } else {
      assert (a + b)[..|a + b| - 1] == a + b[..|b| - 1];
      MintingAppend(a, b[..|b| - 1]);
    }
  }

  function Mintings(t: Task): nat { if t.Minting? then 1 else 0 }

  lemma MintingSnoc(a: seq<Task>, t: Task)
    ensures MintingTasks(a + [t]) == MintingTasks(a) + Mintings(t)
  {
    assert (a + [t])[..|a|] == a;
  }

  lemma WithoutSnoc(a: seq<Task>, t: Task, i: nat)
    requires i <= |a|
    ensures Without(a + [t], i) == if i == |a| then a else Without(a, i) + [t]
  {
    if i < |a| {
      assert (a + [t])[..i] == a[..i];
      assert (a + [t])[i + 1..] == a[i + 1..] + [t];
    }
  }

  lemma {:induction false} MintingWithout(tasks: seq<Task>, i: nat)
    requires i < |tasks|
    ensures MintingTasks(tasks) == MintingTasks(Without(tasks, i)) + Mintings(tasks[i])
    decreases |tasks|
  {
    var n := |tasks| - 1;
    var a, t := tasks[..n], tasks[n];
    assert tasks == a + [t];
    WithoutSnoc(a, t, i);
    MintingSnoc(a, t);
    if i < n {
      MintingWithout(a, i);
      MintingSnoc(Without(a, i), t);
    }
  }

  predicate MintsAdd(w: World) {
    |w.mintCalls| == |w.minted| + w.rejectedMints + MintingTasks(w.tasks)
  }

  lemma ResumedCounts(w: World, i: nat, a: Answer)
    requires i < |w.tasks|
    ensures var v := Resumed(w, i, a);
      v != w ==> |v.minted| + v.rejectedMints == |w.minted| + w.rejectedMints + Mintings(w.tasks[i])
  {
  }

  lemma ContinuationNeverMints(t: Task, a: Answer)
    ensures MintingTasks(Continuation(t, a)) == 0
  {
    var more := Continuation(t, a);
    if more != [] {
      MintingSnoc([], more[0]);
      assert more == [] + [more[0]];
    }
  }

  lemma ResumeMintsAdd(w: World, i: nat, a: Answer)
    requires MintsAdd(w) && i < |w.tasks|
    ensures MintsAdd(Resumed(w, i, a))
  {
    ResumedTasks(w, i, a);
    ResumedCounts(w, i, a);
    MintingWithout(w.tasks, i);
    MintingAppend(Without(w.tasks, i), Continuation(w.tasks[i], a));
    ContinuationNeverMints(w.tasks[i], a);
  }

  lemma TaskMintsAdd(w: World, t: Task)
    requires MintsAdd(w)
    ensures t.Minting? ==> MintsAdd(w.(tasks := w.tasks + [t], mintCalls := w.mintCalls + [t.snap]))
    ensures !t.Minting? ==> MintsAdd(w.(tasks := w.tasks + [t]))
  {
    MintingSnoc(w.tasks, t);
  }

  lemma StepMintsAdd(w: World, e: Event)
    requires MintsAdd(w)
    ensures MintsAdd(Step(w, e))
  {
    match e
    case Resume(i, a) => if i < |w.tasks| { ResumeMintsAdd(w, i, a); }
    case EnterWallet => TaskMintsAdd(w, ResolvingName);
    case BeginApproval => if w.state.GuardianState? { TaskMintsAdd(w, Minting(w.state.snap)); }
    case ApproveConnected => if w.state.Approving? { TaskMintsAdd(w, Connecting(w.state.snap, w.state.promoteKey)); }
    case ApproveImported => if w.state.Approving? { TaskMintsAdd(w, SigningImported(w.state.snap, w.state.promoteKey)); }
  }

  /** Every passkey ceremony started is under way, gave one key, or failed: no key without a ceremony of its own. */
  lemma {:induction false} MintsAccountedFor(events: seq<Event>)
    ensures MintsAdd(Run(Fresh, events))
  {
    if events != [] {
      MintsAccountedFor(events[..|events| - 1]);
      StepMintsAdd(Run(Fresh, events[..|events| - 1]), events[|events| - 1]);
    }
  }

  predicate IsAttempt(t: Task, snap: Snapshot, key: string) {
    (t.Connecting? || t.SigningConnected? || t.SigningImported?) && t.snap == snap && t.promoteKey == key
  }

  predicate AllAttempts(tasks: seq<Task>, snap: Snapshot, key: string) {
    forall i :: 0 <= i < |tasks| ==> IsAttempt(tasks[i], snap, key)
  }

  /** Nothing but approval attempts with this snapshot and key is under way. */
  predicate Attempting(w: World, snap: Snapshot, key: string) {
    && AllAttempts(w.tasks, snap, key)
    && ((w.state.Approving? && w.state.snap == snap && w.state.promoteKey == key)
        || (w.state.Submitted? && w.state.approval.promoteKey == key
            && w.state.approval.nonce == if snap.pending.Some? then snap.pending.value else 0))
  }

  lemma AttemptsKept(tasks: seq<Task>, i: nat, more: seq<Task>, snap: Snapshot, key: string)
    requires i < |tasks| && AllAttempts(tasks, snap, key) && AllAttempts(more, snap, key)
    ensures AllAttempts(Without(tasks, i) + more, snap, key)
  {
    var all := Without(tasks, i) + more;
    forall j | 0 <= j < |all| ensures IsAttempt(all[j], snap, key) {
      assert all[j] == if j < i then tasks[j] else if j < |tasks| - 1 then tasks[j + 1] else more[j - (|tasks| - 1)];
    }
  }

  lemma ResumeKeepsAttempt(w: World, i: nat, a: Answer, snap: Snapshot, key: string)
    requires Attempting(w, snap, key) && i < |w.tasks|
    ensures Attempting(Resumed(w, i, a), snap, key)
    ensures Resumed(w, i, a).mintCalls == w.mintCalls && Resumed(w, i, a).minted == w.minted
  {
    assert IsAttempt(w.tasks[i], snap, key);
    ResumedTasks(w, i, a);
    AttemptsKept(w.tasks, i, Continuation(w.tasks[i], a), snap, key);
  }

  lemma StepKeepsAttempt(w: World, e: Event, snap: Snapshot, key: string)
    requires Attempting(w, snap, key) && e != EnterWallet
    ensures Attempting(Step(w, e), snap, key)
    ensures Step(w, e).mintCalls == w.mintCalls && Step(w, e).minted == w.minted
  {
    match e
    case Resume(i, a) => if i < |w.tasks| { ResumeKeepsAttempt(w, i, a, snap, key); }
    case _ =>
  }

  /** Failed signatures, however many and however interleaved, keep the same promote key, snapshot and nonce, and never
      start another passkey ceremony. */
  lemma {:induction false} RetriesKeepTheKey(w: World, events: seq<Event>, snap: Snapshot, key: string)
    requires Attempting(w, snap, key) && EnterWallet !in events
    ensures var v := Run(w, events);
      Attempting(v, snap, key) && v.mintCalls == w.mintCalls && v.minted == w.minted
  {
    if events != [] {
      RetriesKeepTheKey(w, events[..|events| - 1], snap, key);
      StepKeepsAttempt(Run(w, events[..|events| - 1]), events[|events| - 1], snap, key);
    }
  }

  /** A rejected passkey ceremony leaves the screen as it is. */
  lemma RejectedMintChangesNothing(w: World, i: nat, message: string)
    requires i < |w.tasks| && w.tasks[i].Minting?
    ensures var v := Step(w, Resume(i, Failed(message)));
      v.state == w.state && v.minted == w.minted && v.approvals == w.approvals && v.tasks == Without(w.tasks, i)
  {
  }

  // ---- what each call leads to ----

  /** A failed lookup ends on its message; a failed approval goes back to the approval screen, with the key and snapshot
      it had and the reason. Neither leaves anything else behind. */
  lemma FailureIsShown(w: World, i: nat, message: string)
    requires i < |w.tasks| && !w.tasks[i].Minting?
    ensures var v := Step(w, Resume(i, Failed(message)));
      && v == w.(state := v.state, tasks := Without(w.tasks, i))
      && (w.tasks[i].ResolvingName? || w.tasks[i].Reading? ==> v.state == Error(message))
      && (!w.tasks[i].ResolvingName? && !w.tasks[i].Reading? ==>
            v.state == Approving(w.tasks[i].snap, w.tasks[i].promoteKey, Some(message)))
  {
  }

  /** A connected wallet outside the roster is refused by name, on the approval screen it came from, and signs nothing. */
  lemma StrangerIsRefused(w: World, i: nat, guardian: string)
    requires i < |w.tasks| && w.tasks[i].Connecting?
    requires forall j :: 0 <= j < |w.tasks[i].snap.guardians| ==> Lower(w.tasks[i].snap.guardians[j]) != Lower(guardian)
    ensures Step(w, Resume(i, Connected(guardian)))
         == w.(state := Approving(w.tasks[i].snap, w.tasks[i].promoteKey, Some(guardian + " is not a guardian of this wallet")),
               tasks := Without(w.tasks, i))
  {
  }

  /** A wallet without guardians is told so. */
  lemma NoGuardiansIsSaid(w: World)
    requires w.state.GuardianState? && w.state.snap.guardians == []
    ensures Step(w, BeginApproval) == w.(state := Error("This wallet has no guardians configured — recovery is not available."))
  {
  }

  function Looking(w: World, wallet: string, guardians: seq<string>, pending: Option<nat>): World {
    var n := |w.tasks|;
    Run(w, [EnterWallet, Resume(n, Resolved(wallet)), Resume(n, ReadDone(guardians, pending))])
  }

  lemma Then(w: World, events: seq<Event>, e: Event)
    ensures Run(w, events + [e]) == Step(Run(w, events), e)
  {
    assert (events + [e])[..|events|] == events;
  }

  lemma Alone(tasks: seq<Task>, t: Task)
    ensures Without(tasks + [t], |tasks|) == tasks
  {
  }

  /** Until the account is read, the screen is looking, whatever the name resolved to. */
  lemma LookupWaits(w: World, wallet: string)
    ensures var entered := Step(w, EnterWallet);
      entered.state == Resolving && Step(entered, Resume(|w.tasks|, Resolved(wallet))).state == Resolving
  {
  }

  /** Entering a wallet ends, once its name is resolved and its account read, on exactly what was read. */
  lemma LookupShows(w: World, wallet: string, guardians: seq<string>, pending: Option<nat>)
    ensures var snap := Snapshot(wallet, guardians, pending);
      Looking(w, wallet, guardians, pending) == w.(state := GuardianState(snap), readings := w.readings + {snap})
  {
    var n := |w.tasks|;
    var second, third := Resume(n, Resolved(wallet)), Resume(n, ReadDone(guardians, pending));
    Then(w, [], EnterWallet);
    Then(w, [EnterWallet], second);
    Then(w, [EnterWallet, second], third);
    assert [] + [EnterWallet] == [EnterWallet];
    assert [EnterWallet, second] + [third] == [EnterWallet, second, third];
    Alone(w.tasks, ResolvingName);
    Alone(w.tasks, Reading(wallet));
  }

  /** From a snapshot with guardians, a passkey ceremony that gives an address opens the approval of that very snapshot
      with it; whatever else is under way stays so. */
  lemma MintOpensApproval(w: World, address: string)
    requires w.state.GuardianState? && w.state.snap.guardians != []
    ensures var snap := w.state.snap;
      Step(Step(w, BeginApproval), Resume(|w.tasks|, Minted(address)))
        == w.(state := Approving(snap, address, None), mintCalls := w.mintCalls + [snap], minted := w.minted + [Mint(snap, address)])
  {
    Alone(w.tasks, Minting(w.state.snap));
  }

  /** An imported guardian that signs has approved this snapshot's recovery: its own address, this key, and the pending
      nonce, or zero. */
  lemma ImportedApproves(w: World, guardian: string, signature: string)
    requires w.state.Approving?
    ensures var v := Step(Step(w, ApproveImported), Resume(|w.tasks|, Signed(guardian, signature)));
      && v.state.Submitted? && v.tasks == w.tasks
      && v.state.approval.guardian == guardian && v.state.approval.promoteKey == w.state.promoteKey
      && v.state.approval.nonce == (if w.state.snap.pending.Some? then w.state.snap.pending.value else 0)
      && v.state.approval.signature == signature
      && v.approvals == w.approvals + [Approved(w.state.snap, w.state.promoteKey, true, v.state.approval)]
  {
    Alone(w.tasks, SigningImported(w.state.snap, w.state.promoteKey));
  }

  /** A connected guardian of the roster that signs has approved it just so; the approval names the connected address. */
  lemma ConnectedApproves(w: World, guardian: string, signer: string, signature: string)
    requires w.state.Approving?
    requires exists i :: 0 <= i < |w.state.snap.guardians| && Lower(w.state.snap.guardians[i]) == Lower(guardian)
    ensures var connected := Step(Step(w, ApproveConnected), Resume(|w.tasks|, Connected(guardian)));
      var v := Step(connected, Resume(|w.tasks|, Signed(signer, signature)));
      && v.state.Submitted? && v.tasks == w.tasks
      && v.state.approval.guardian == guardian && v.state.approval.promoteKey == w.state.promoteKey
      && v.state.approval.nonce == (if w.state.snap.pending.Some? then w.state.snap.pending.value else 0)
      && v.state.approval.signature == signature
      && v.approvals == w.approvals + [Approved(w.state.snap, w.state.promoteKey, false, v.state.approval)]
  {
    Alone(w.tasks, Connecting(w.state.snap, w.state.promoteKey));
    Alone(w.tasks, SigningConnected(w.state.snap, w.state.promoteKey, guardian));
  }

  // ---- the wallet asked for last ----

  /** The task can only bring this wallet to the screen. */
  predicate TaskFor(t: Task, wallet: string) {
    match t
    case ResolvingName => false
    case Reading(w) => w == wallet
    case Minting(snap) => snap.wallet == wallet
    case Connecting(snap, _) => snap.wallet == wallet
    case SigningConnected(snap, _, _) => snap.wallet == wallet
    case SigningImported(snap, _) => snap.wallet == wallet
  }

  predicate TasksFor(tasks: seq<Task>, wallet: string) {
    forall i :: 0 <= i < |tasks| ==> TaskFor(tasks[i], wallet)
  }

  /** What is on the screen is of this wallet, and so is every approval beyond the first `n`. */
  predicate OnlyShows(w: World, n: nat, wallet: string) {
    && n <= |w.approvals|
    && (forall i :: n <= i < |w.approvals| ==> w.approvals[i].snap.wallet == wallet)
    && match w.state
       case GuardianState(snap) => snap.wallet == wallet
       case Approving(snap, _, _) => snap.wallet == wallet
       case Submitted(approval) => exists i :: n <= i < |w.approvals| && w.approvals[i].approval == approval
       case _ => true
  }

  lemma TasksForKept(tasks: seq<Task>, i: nat, more: seq<Task>, wallet: string)
    requires i < |tasks| && TasksFor(tasks, wallet) && TasksFor(more, wallet)
    ensures TasksFor(Without(tasks, i) + more, wallet)
  {
    var all := Without(tasks, i) + more;
    forall j | 0 <= j < |all| ensures TaskFor(all[j], wallet) {
      assert all[j] == if j < i then tasks[j] else if j < |tasks| - 1 then tasks[j + 1] else more[j - (|tasks| - 1)];
    }
  }

  lemma ResumeKeepsWallet(w: World, i: nat, a: Answer, n: nat, wallet: string)
    requires TasksFor(w.tasks, wallet) && OnlyShows(w, n, wallet) && i < |w.tasks|
    ensures TasksFor(Resumed(w, i, a).tasks, wallet) && OnlyShows(Resumed(w, i, a), n, wallet)
  {
    ResumedTasks(w, i, a);
    TasksForKept(w.tasks, i, Continuation(w.tasks[i], a), wallet);
    var v := Resumed(w, i, a);
    assert TaskFor(w.tasks[i], wallet);
    if v.state.Submitted? {
      if |v.approvals| > |w.approvals| {
        assert v.approvals[|w.approvals|].approval == v.state.approval;
      } else {
        assert v.approvals == w.approvals && v.state == w.state;
      }
    }
  }

  lemma {:induction false} KeepsWallet(w: World, events: seq<Event>, n: nat, wallet: string)
    requires TasksFor(w.tasks, wallet) && OnlyShows(w, n, wallet) && EnterWallet !in events
    ensures TasksFor(Run(w, events).tasks, wallet) && OnlyShows(Run(w, events), n, wallet)
  {
    if events != [] {
      KeepsWallet(w, events[..|events| - 1], n, wallet);
      var v := Run(w, events[..|events| - 1]);
      match events[|events| - 1]
      case Resume(i, a) => if i < |v.tasks| { ResumeKeepsWallet(v, i, a, n, wallet); }
      case _ =>
    }
  }

  datatype Lookup = Undecided | Refused | Found(wallet: string)

  /** How a lookup that is the only task comes out over these events. */
  function LookupOf(events: seq<Event>): Lookup {
    if events == [] then Undecided
    else
      var before := LookupOf(events[..|events| - 1]);
      if before != Undecided then before
      else
        match events[|events| - 1]
        case Resume(0, Resolved(wallet)) => Found(wallet)
        case Resume(0, Failed(_)) => Refused
        case _ => Undecided
  }

  /** The screen since a lookup that started with nothing else under way. */
  predicate Follows(w: World, n: nat, lookup: Lookup) {
    match lookup
    case Undecided => w.tasks == [ResolvingName] && w.state == Resolving && |w.approvals| == n
    case Refused => w.tasks == [] && w.state.Error? && |w.approvals| == n
    case Found(wallet) => TasksFor(w.tasks, wallet) && OnlyShows(w, n, wallet)
  }

  lemma StepFollows(w: World, e: Event, n: nat, events: seq<Event>)
    requires e != EnterWallet && Follows(w, n, LookupOf(events))
    ensures Follows(Step(w, e), n, LookupOf(events + [e]))
  {
    assert (events + [e])[..|events|] == events;
    match LookupOf(events)
    case Found(wallet) =>
      if e.Resume? && e.task < |w.tasks| { ResumeKeepsWallet(w, e.task, e.answer, n, wallet); }
    case _ =>
  }

  /** An idle screen keeps to the wallet asked for last: when nothing is under way as a wallet is entered, then until the
      next one is entered every snapshot on screen and every approval is of the wallet that lookup resolved. */
  lemma {:induction false} IdleShowsLatest(w: World, events: seq<Event>)
    requires w.tasks == [] && EnterWallet !in events
    ensures Follows(Run(Step(w, EnterWallet), events), |w.approvals|, LookupOf(events))
  {
    if events != [] {
      var before, e := events[..|events| - 1], events[|events| - 1];
      IdleShowsLatest(w, before);
      StepFollows(Run(Step(w, EnterWallet), before), e, |w.approvals|, before);
      assert before + [e] == events;
    }
  }

  /** The screen once a newly entered wallet has been resolved and read, with whatever was under way before it. */
  function Entered(w: World, snap: Snapshot): World {
    var n := |w.tasks|;
    Step(Step(Step(w, EnterWallet), Resume(n, Resolved(snap.wallet))), Resume(n, ReadDone(snap.guardians, snap.pending)))
  }

  lemma EnteredShows(w: World, snap: Snapshot)
    ensures var v := Entered(w, snap);
      v.state == GuardianState(snap) && v.tasks == w.tasks && v.approvals == w.approvals
  {
    var n := |w.tasks|;
    var asked := Step(w, EnterWallet);
    var resolved := Step(asked, Resume(n, Resolved(snap.wallet)));
    assert Without(asked.tasks, n) == w.tasks;
    assert resolved.tasks == w.tasks + [Reading(snap.wallet)];
    assert Without(resolved.tasks, n) == w.tasks;
  }

  lemma RunOne(w: World, e: Event)
    ensures Run(w, [e]) == Step(w, e)
  {
    assert [e][..0] == [];
  }

  lemma RunTwo(w: World, e: Event, f: Event)
    ensures Run(w, [e, f]) == Step(Step(w, e), f)
  {
    RunOne(w, e);
    assert [e, f][..1] == [e];
  }

  /** A wallet other than this one. */
  function Another(wallet: string): string { wallet + "x" }

  /** A task left from before brings its own wallet back. */
  lemma OlderComesBack(w: World, i: nat, n: nat, wallet: string) returns (events: seq<Event>)
    requires i < |w.tasks| && !TaskFor(w.tasks[i], wallet)
    ensures EnterWallet !in events && !OnlyShows(Run(w, events), n, wallet)
  {
    var older := Another(wallet);
    var last := |w.tasks| - 1;
    match w.tasks[i]
    case ResolvingName =>
      events := [Resume(i, Resolved(older)), Resume(last, ReadDone([], None))];
      RunTwo(w, events[0], events[1]);
      assert Without(w.tasks, i) + [Reading(older)] == Step(w, events[0]).tasks;
      assert Step(w, events[0]).tasks[last] == Reading(older);
      assert older != wallet by { assert |older| != |wallet|; }
    case Reading(_) =>
      events := [Resume(i, ReadDone([], None))];
      RunOne(w, events[0]);
    case Minting(_) =>
      events := [Resume(i, Minted(""))];
      RunOne(w, events[0]);
    case _ =>
      events := [Resume(i, Failed(""))];
      RunOne(w, events[0]);
  }

  /** Exactly when the wallet just entered stays: whatever follows short of entering another, the screen and every new
      approval are of it if and only if all that was under way before can only bring that same wallet. */
  lemma LatestIff(w: World, snap: Snapshot)
    ensures (forall events: seq<Event> | EnterWallet !in events ::
               OnlyShows(Run(Entered(w, snap), events), |w.approvals|, snap.wallet))
        <==> TasksFor(w.tasks, snap.wallet)
  {
    EnteredShows(w, snap);
    var v := Entered(w, snap);
    if TasksFor(w.tasks, snap.wallet) {
      forall events: seq<Event> | EnterWallet !in events ensures OnlyShows(Run(v, events), |w.approvals|, snap.wallet) {
        KeepsWallet(v, events, |w.approvals|, snap.wallet);
      }
    } else {
      var i :| 0 <= i < |w.tasks| && !TaskFor(w.tasks[i], snap.wallet);
      var events := OlderComesBack(v, i, |w.approvals|, snap.wallet);
    }
  }

  // ---- what does not hold ----

  /** A connected guardian gets to sign exactly when it is in the roster; an imported key's guardian is not looked up. */
  lemma RosterCheckedIff(w: World, i: nat, guardian: string, signature: string)
    requires i < |w.tasks| && (w.tasks[i].Connecting? || w.tasks[i].SigningImported?)
    ensures w.tasks[i].Connecting? ==>
      ((exists t :: t in Step(w, Resume(i, Connected(guardian))).tasks[|w.tasks| - 1..] && t.SigningConnected?)
        <==> exists j :: 0 <= j < |w.tasks[i].snap.guardians| && Lower(w.tasks[i].snap.guardians[j]) == Lower(guardian))
    ensures w.tasks[i].SigningImported? ==>
      Step(w, Resume(i, Signed(guardian, signature))).state
        == Submitted(Approval(guardian, w.tasks[i].promoteKey,
                              if w.tasks[i].snap.pending.Some? then w.tasks[i].snap.pending.value else 0, signature))
  {
    if w.tasks[i].Connecting? {
      var v := Step(w, Resume(i, Connected(guardian)));
      if InRoster(w.tasks[i].snap.guardians, guardian) {
        assert v.tasks[|w.tasks| - 1] == SigningConnected(w.tasks[i].snap, w.tasks[i].promoteKey, guardian);
        assert v.tasks[|w.tasks| - 1] in v.tasks[|w.tasks| - 1..];
      }
    }
  }

  /** An instance: with two lookups under way, the one that answers last is on the screen, not the one asked for
      last. */
  lemma LastAnswerWins(first: string, second: string, guardians: seq<string>)
    ensures var asked := Step(Step(Fresh, EnterWallet), EnterWallet);
      var resolved := Step(Step(asked, Resume(0, Resolved(first))), Resume(0, Resolved(second)));
      var read := Step(Step(resolved, Resume(1, ReadDone(guardians, None))), Resume(0, ReadDone(guardians, None)));
      read.state == GuardianState(Snapshot(first, guardians, None))
  {
    var asked := Step(Step(Fresh, EnterWallet), EnterWallet);
    assert asked.tasks == [ResolvingName, ResolvingName];
    var resolved := Step(Step(asked, Resume(0, Resolved(first))), Resume(0, Resolved(second)));
    assert resolved.tasks == [Reading(first), Reading(second)];
    var read := Step(resolved, Resume(1, ReadDone(guardians, None)));
    assert read.tasks == [Reading(first)];
  }

  // ---- the object ----

  /** The same machine as the closure runs it. */
  class Ceremony {
    var state: RecoverState
    var tasks: seq<Task>
    var readings: set<Snapshot>
    var mintCalls: seq<Snapshot>
    var minted: seq<Mint>
    var rejectedMints: nat
    var approvals: seq<Approved>

    function Abs(): World
      reads this
    {
      World(state, tasks, readings, mintCalls, minted, rejectedMints, approvals)
    }

    constructor ()
      ensures Abs() == Fresh
    {
      state, tasks, readings, mintCalls, minted, rejectedMints, approvals := Enter, [], {}, [], [], 0, [];
    }

    method StartEnterWallet()
      modifies this
      ensures Abs() == Step(old(Abs()), EnterWallet)
    {
      state := Resolving;
      tasks := tasks + [ResolvingName];
    }

    /** False where the call throws. */
    method StartBeginApproval() returns (ok: bool)
      modifies this
      ensures Abs() == Step(old(Abs()), BeginApproval)
      ensures ok <==> old(state).GuardianState?
    {
      if !state.GuardianState? { return false; }
      var snap := state.snap;
      if |snap.guardians| == 0 {
        state := Error(NO_GUARDIANS);
        return true;
      }
      mintCalls := mintCalls + [snap];
      tasks := tasks + [Minting(snap)];
      ok := true;
    }

    method StartApprove(imported: bool) returns (ok: bool)
      modifies this
      ensures Abs() == Step(old(Abs()), if imported then ApproveImported else ApproveConnected)
      ensures ok <==> old(state).Approving?
    {
      if !state.Approving? { return false; }
      tasks := tasks + [if imported then SigningImported(state.snap, state.promoteKey) else Connecting(state.snap, state.promoteKey)];
      ok := true;
    }

    method ResumeEnterWallet(i: nat, a: Answer)
      requires i < |tasks| && (tasks[i].ResolvingName? || tasks[i].Reading?)
      requires a.Failed? || (if tasks[i].ResolvingName? then a.Resolved? else a.ReadDone?)
      modifies this
      ensures Abs() == Step(old(Abs()), Resume(i, a))
    {
      var t := tasks[i];
      tasks := Without(tasks, i);
      if a.Failed? { state := Error(a.message); return; }
      if t.ResolvingName? { tasks := tasks + [Reading(a.wallet)]; return; }
      var snap := Snapshot(t.wallet, a.guardians, a.pending);
      readings := readings + {snap};
      state := GuardianState(snap);
    }

    method ResumeBeginApproval(i: nat, a: Answer)
      requires i < |tasks| && tasks[i].Minting? && (a.Failed? || a.Minted?)
      modifies this
      ensures Abs() == Step(old(Abs()), Resume(i, a))
    {
      var snap := tasks[i].snap;
      tasks := Without(tasks, i);
      if a.Failed? { rejectedMints := rejectedMints + 1; return; }
      minted := minted + [Mint(snap, a.address)];
      state := Approving(snap, a.address, None);
    }

    method ResumeApprove(i: nat, a: Answer)
      requires i < |tasks| && (tasks[i].Connecting? || tasks[i].SigningConnected? || tasks[i].SigningImported?)
      requires a.Failed? || (if tasks[i].Connecting? then a.Connected? else a.Signed?)
      modifies this
      ensures Abs() == Step(old(Abs()), Resume(i, a))
    {
      var t := tasks[i];
      tasks := Without(tasks, i);
      if a.Failed? { state := Approving(t.snap, t.promoteKey, Some(a.message)); return; }
      if t.Connecting? {
        if !InRoster(t.snap.guardians, a.address) {
          state := Approving(t.snap, t.promoteKey, Some(a.address + " is not a guardian of this wallet"));
          return;
        }
        tasks := tasks + [SigningConnected(t.snap, t.promoteKey, a.address)];
        return;
      }
      var guardian := if t.SigningConnected? then t.guardian else a.guardian;
      var approval := Approval(guardian, t.promoteKey, NonceFor(t.snap.pending), a.signature);
      approvals := approvals + [Approved(t.snap, t.promoteKey, t.SigningImported?, approval)];
      state := Submitted(approval);
    }
  }
}
