/** Both halves of the popup protocol running together: the opener's task queue, the messages on their way to the
    popup, and an environment that closes windows, fires timers and injects foreign messages at any moment. */
module PopupSession {
  import opened Wrappers
  import opened Messages
  import WebChannel
  import AuthPopup

  datatype Config = Config(request: Data, appOrigin: string, authOrigin: string)

  /** The request is one the channel sends. */
  predicate Valid(c: Config) {
    IsRequest(c.request)
  }

  datatype Task = Deliver(event: Event) | PollTick | DeferredReject | TimeoutFires

  datatype System = System(
    opener: WebChannel.OpenerState,
    popup: AuthPopup.PopupPage,
    toOpener: seq<Task>,
    toPopup: seq<Event>)

  datatype Step =
    | QueuePoll
    | QueueTimeout
    | RunOpenerTask
    | LoadPopup
    | RunPopupMessage
    | LoseUnloaded
    | PopupReplies(content: string)
    | UserCloses
    | InjectIntoOpener(event: Event)
    | InjectIntoPopup(event: Event)

  function RequestEvent(c: Config): Event {
    Event(OpenerWindow, c.appOrigin, c.request)
  }

  function FromPopup(c: Config, d: Data): Task {
    Deliver(Event(PopupWindow, c.authOrigin, d))
  }

  /** The browser delivers a post only to a window of the targeted origin. */
  predicate Reaches(target: string, origin: string) {
    target == "*" || target == origin
  }

  /** The posts of the opener that reach the popup's page, as it receives them. */
  function ArriveAtPopup(c: Config, posts: seq<Post>): seq<Event> {
    if posts == [] then []
    else
      var p := posts[|posts| - 1];
      ArriveAtPopup(c, posts[..|posts| - 1])
      + if Reaches(p.target, c.authOrigin) then [Event(OpenerWindow, c.appOrigin, p.data)] else []
  }

  /** The posts of the popup that reach the opener's page. */
  function ArriveAtOpener(c: Config, posts: seq<Post>): seq<Task> {
    if posts == [] then []
    else
      var p := posts[|posts| - 1];
      ArriveAtOpener(c, posts[..|posts| - 1]) + if Reaches(p.target, c.appOrigin) then [FromPopup(c, p.data)] else []
  }

  /** What was posted since. */
  function NewPosts(before: seq<Post>, after: seq<Post>): seq<Post> {
    if |before| <= |after| then after[|before|..] else []
  }

  function Init(c: Config): System {
    var opener := WebChannel.Opened(c.request, c.authOrigin);
    System(opener, AuthPopup.Blank, [], ArriveAtPopup(c, opener.posts))
  }

  /** A browser runs a queued callback only while its timer or listener is still registered. */
  function RunTask(c: Config, s: System, t: Task): WebChannel.OpenerState {
    match t
    case Deliver(e) => if s.opener.listening then WebChannel.OnMessage(s.opener, c.request, c.authOrigin, e) else s.opener
    case PollTick => if s.opener.polling then WebChannel.OnPoll(s.opener, s.popup.closed) else s.opener
    case TimeoutFires => if s.opener.timerArmed then WebChannel.OnTimeout(s.opener) else s.opener
    case DeferredReject => WebChannel.OnDeferred(s.opener)
  }

  /** Runs the first task in the opener's queue: its new posts go to the popup window if that is open, a poll
      that sees the window closed queues the deferred reject, and settling closes the window. */
  function RunOpener(c: Config, s: System): System
    requires s.toOpener != []
  {
    var t := s.toOpener[0];
    var o := RunTask(c, s, t);
    var deferred := if t.PollTick? && s.opener.polling && s.popup.closed then [DeferredReject] else [];
    var posted := if s.popup.closed then [] else ArriveAtPopup(c, NewPosts(s.opener.posts, o.posts));
    s.(opener := o,
       popup := s.popup.(closed := s.popup.closed || o.closesPopup),
       toOpener := s.toOpener[1..] + deferred,
       toPopup := s.toPopup + posted)
  }

  /** Foreign to the opener: not from the window it opened, or not from the auth origin. */
  predicate ForeignToOpener(c: Config, e: Event) {
    e.source != PopupWindow || e.origin != c.authOrigin
  }

  /** Foreign to the popup: not from its opener, or from an origin that names nobody. */
  predicate ForeignToPopup(e: Event) {
    e.source != OpenerWindow || IsOpaque(e.origin)
  }

  /** One step; a step that is not enabled changes nothing. */
  function Apply(c: Config, s: System, step: Step): System {
    match step
    case QueuePoll => if s.opener.polling then s.(toOpener := s.toOpener + [PollTick]) else s
    case QueueTimeout => if s.opener.timerArmed then s.(toOpener := s.toOpener + [TimeoutFires]) else s
    case RunOpenerTask => if s.toOpener != [] then RunOpener(c, s) else s
    case LoadPopup =>
      if s.popup.listening || s.popup.closed then s
      else
        var p := AuthPopup.Start(s.popup);
        s.(popup := p, toOpener := s.toOpener + ArriveAtOpener(c, NewPosts(s.popup.posts, p.posts)))
    case RunPopupMessage =>
      if s.toPopup == [] || !s.popup.listening || s.popup.closed then s
      else s.(popup := AuthPopup.OnMessage(s.popup, s.toPopup[0]), toPopup := s.toPopup[1..])
    case LoseUnloaded =>
      if s.toPopup == [] || s.popup.listening then s else s.(toPopup := s.toPopup[1..])
    case PopupReplies(content) =>
      if !AuthPopup.CanReply(s.popup) then s
      else
        var p := AuthPopup.Reply(s.popup, content);
        s.(popup := p, toOpener := s.toOpener + ArriveAtOpener(c, NewPosts(s.popup.posts, p.posts)))
    case UserCloses => s.(popup := s.popup.(closed := true))
    case InjectIntoOpener(e) => if ForeignToOpener(c, e) then s.(toOpener := s.toOpener + [Deliver(e)]) else s
    case InjectIntoPopup(e) => if ForeignToPopup(e) then s.(toPopup := s.toPopup + [e]) else s
  }

  function RunFrom(c: Config, s: System, steps: seq<Step>): System
    decreases |steps|
  {
    if steps == [] then s else Apply(c, RunFrom(c, s, steps[..|steps| - 1]), steps[|steps| - 1])
  }

  function Run(c: Config, steps: seq<Step>): System {
    RunFrom(c, Init(c), steps)
  }

  // ---- the invariant ----

  predicate OpenerInv(c: Config, o: WebChannel.OpenerState) {
    && (forall p :: p in o.posts ==> p == Post(c.request, c.authOrigin))
    && o.calls == (if o.settled then 1 else 0)
    && (o.settled <==> o.outcome.Some?)
    && (o.settled <==> !o.listening)
    && (o.settled <==> !o.timerArmed)
    && (o.settled <==> o.closesPopup)
    && (o.settled ==> !o.polling)
  }

  predicate PopupInv(c: Config, p: AuthPopup.PopupPage) {
    && (p.pinnedOrigin == None || p.pinnedOrigin == Some(c.appOrigin))
    && (IsOpaque(c.appOrigin) ==> p.pinnedOrigin == None)
    && (if p.pending then p.driven == [c.request] && p.pinnedOrigin.Some? && p.listening else p.driven == [] && p.reply == None)
    && (p.reply.Some? ==> c.request.Message? && p.reply.value.Message? && p.reply.value.kind == c.request.kind)
    && (p.reply.Some? ==> !(c.request.kind == Authorize && c.request.body == ""))
    && p.posts == (if p.listening then [Post(READY, "*")] else [])
        + (if p.reply.Some? then [Post(p.reply.value, c.appOrigin)] else [])
  }

  /** What may be on its way to the opener from the popup: `ready`, or the popup's one reply. */
  predicate TaskInv(c: Config, s: System, t: Task) {
    t.Deliver? && !ForeignToOpener(c, t.event) ==>
      t.event.data == READY || Some(t.event.data) == s.popup.reply
  }

  predicate QueueInv(c: Config, s: System) {
    && (forall i :: 0 <= i < |s.toOpener| ==> TaskInv(c, s, s.toOpener[i]))
    && (forall i :: 0 <= i < |s.toPopup| ==> ForeignToPopup(s.toPopup[i]) || s.toPopup[i] == RequestEvent(c))
  }

  predicate OutcomeInv(s: System) {
    && (s.opener.settled ==> s.popup.closed)
    && (s.opener.outcome.Some? && s.opener.outcome.value.Resolved? ==> s.popup.reply == Some(s.opener.outcome.value.data))
    && (s.opener.outcome.Some? && s.opener.outcome.value.Rejected? ==>
          s.opener.outcome.value.reason in {WebChannel.TIMED_OUT, WebChannel.CLOSED})
  }

  /** The reply stands in the queue with no deferred reject before it. */
  predicate ReplyAhead(c: Config, s: System, i: nat) {
    && s.popup.reply.Some?
    && i < |s.toOpener|
    && s.toOpener[i] == FromPopup(c, s.popup.reply.value)
    && (forall j :: 0 <= j < i ==> s.toOpener[j] != DeferredReject)
  }

  ghost predicate RaceInv(c: Config, s: System) {
    && (!s.popup.closed ==> forall i :: 0 <= i < |s.toOpener| ==> s.toOpener[i] != DeferredReject)
    && (s.popup.reply.Some? && !s.opener.settled ==> exists i: nat :: ReplyAhead(c, s, i))
    && (s.popup.reply.Some? && s.opener.outcome.Some? ==> s.opener.outcome.value != WebChannel.Rejected(WebChannel.CLOSED))
  }

  predicate ReadyInFlight(c: Config, s: System, i: nat) {
    i < |s.toOpener| && s.toOpener[i] == FromPopup(c, READY)
  }

  predicate RequestInFlight(c: Config, s: System, i: nat) {
    i < |s.toPopup| && s.toPopup[i] == RequestEvent(c)
  }

  predicate Waiting(s: System) {
    s.popup.listening && !s.popup.closed && !s.popup.pending && !s.opener.settled
  }

  ghost predicate HandshakeInv(c: Config, s: System) {
    !IsOpaque(c.appOrigin) && Waiting(s) ==>
      (exists i: nat :: ReadyInFlight(c, s, i)) || (exists i: nat :: RequestInFlight(c, s, i))
  }

  predicate DeferredAt(s: System, i: nat) { i < |s.toOpener| && s.toOpener[i] == DeferredReject }

  /** An unsettled opener has stopped polling only with the deferred reject queued. */
  ghost predicate PollInv(s: System) {
    !s.opener.settled && !s.opener.polling ==> exists i: nat :: DeferredAt(s, i)
  }

  ghost predicate Inv(c: Config, s: System) {
    OpenerInv(c, s.opener) && PopupInv(c, s.popup) && QueueInv(c, s) && OutcomeInv(s) && RaceInv(c, s) && HandshakeInv(c, s)
    && PollInv(s)
  }

  lemma OneArrivesAtPopup(c: Config, p: Post)
    ensures ArriveAtPopup(c, [p]) == if Reaches(p.target, c.authOrigin) then [Event(OpenerWindow, c.appOrigin, p.data)] else []
  {
    assert [p][..0] == [];
  }

  lemma OneArrivesAtOpener(c: Config, p: Post)
    ensures ArriveAtOpener(c, [p]) == if Reaches(p.target, c.appOrigin) then [FromPopup(c, p.data)] else []
  {
    assert [p][..0] == [];
  }

  lemma InitInv(c: Config)
    requires Valid(c)
    ensures Inv(c, Init(c))
  {
    OneArrivesAtPopup(c, Post(c.request, c.authOrigin));
  }

  /** The opener posts only in answer to `ready`, and then the request, which reaches the popup. */
  lemma OpenerPosts(c: Config, s: System)
    requires Valid(c) && Inv(c, s) && s.toOpener != []
    ensures var t := s.toOpener[0];
      var posted := ArriveAtPopup(c, NewPosts(s.opener.posts, RunTask(c, s, t).posts));
      posted == if s.opener.listening && t.Deliver? && !ForeignToOpener(c, t.event) && t.event.data == READY
                then [RequestEvent(c)] else []
  {
    var t := s.toOpener[0];
    var o := RunTask(c, s, t);
    assert TaskInv(c, s, t);
    OneArrivesAtPopup(c, Post(c.request, c.authOrigin));
    if o.posts == s.opener.posts {
      assert NewPosts(s.opener.posts, o.posts) == [];
    } else {
      assert NewPosts(s.opener.posts, o.posts) == [Post(c.request, c.authOrigin)];
    }
  }

  lemma PopupStarts(c: Config, s: System)
    requires Inv(c, s) && !s.popup.listening && !s.popup.closed
    ensures Apply(c, s, LoadPopup) == s.(popup := AuthPopup.Start(s.popup), toOpener := s.toOpener + [FromPopup(c, READY)])
  {
    OneArrivesAtOpener(c, Post(READY, "*"));
    assert NewPosts(s.popup.posts, AuthPopup.Start(s.popup).posts) == [Post(READY, "*")];
  }

  lemma PopupAnswers(c: Config, s: System, content: string)
    requires Inv(c, s) && AuthPopup.CanReply(s.popup)
    ensures var p := AuthPopup.Reply(s.popup, content);
      Apply(c, s, PopupReplies(content)) == s.(popup := p, toOpener := s.toOpener + [FromPopup(c, p.reply.value)])
  {
    var p := AuthPopup.Reply(s.popup, content);
    OneArrivesAtOpener(c, Post(p.reply.value, c.appOrigin));
    assert NewPosts(s.popup.posts, p.posts) == [Post(p.reply.value, c.appOrigin)];
  }

  // ---- one lemma per kind of step ----

  lemma AppendTask(c: Config, s: System, t: Task)
    requires Inv(c, s) && TaskInv(c, s, t) && t != DeferredReject
    ensures Inv(c, s.(toOpener := s.toOpener + [t]))
  {
    var s' := s.(toOpener := s.toOpener + [t]);
    KeepPoll(s, s');
    if s.popup.reply.Some? && !s.opener.settled {
      var i: nat :| ReplyAhead(c, s, i);
      assert ReplyAhead(c, s', i);
    }
    KeepHandshake(c, s, s');
  }

  lemma KeepPoll(s: System, s': System)
    requires PollInv(s) && s'.opener == s.opener && s.toOpener <= s'.toOpener
    ensures PollInv(s')
  {
    if !s.opener.settled && !s.opener.polling {
      var i: nat :| DeferredAt(s, i);
      assert DeferredAt(s', i);
    }
  }

  /** Longer queues keep what was in flight. */
  lemma KeepHandshake(c: Config, s: System, s': System)
    requires HandshakeInv(c, s)
    requires Waiting(s') ==> Waiting(s)
    requires s.toOpener <= s'.toOpener && s.toPopup <= s'.toPopup
    ensures HandshakeInv(c, s')
  {
    if !IsOpaque(c.appOrigin) && Waiting(s') {
      if i: nat :| ReadyInFlight(c, s, i) {
        assert ReadyInFlight(c, s', i);
      } else {
        var i: nat :| RequestInFlight(c, s, i);
        assert RequestInFlight(c, s', i);
      }
    }
  }

  lemma CloseInv(c: Config, s: System)
    requires Inv(c, s)
    ensures Inv(c, s.(popup := s.popup.(closed := true)))
  {
    var s' := s.(popup := s.popup.(closed := true));
    KeepPoll(s, s');
    if s.popup.reply.Some? && !s.opener.settled {
      var i: nat :| ReplyAhead(c, s, i);
      assert ReplyAhead(c, s', i);
    }
  }

  lemma LoadInv(c: Config, s: System)
    requires Valid(c) && Inv(c, s) && !s.popup.listening && !s.popup.closed
    ensures Inv(c, Apply(c, s, LoadPopup))
  {
    var s' := Apply(c, s, LoadPopup);
    PopupStarts(c, s);
    KeepPoll(s, s');
    assert ReadyInFlight(c, s', |s.toOpener|);
  }

  lemma PopupMessageInv(c: Config, s: System)
    requires Valid(c) && Inv(c, s) && s.toPopup != [] && s.popup.listening && !s.popup.closed
    ensures Inv(c, Apply(c, s, RunPopupMessage))
  {
    var s' := Apply(c, s, RunPopupMessage);
    KeepPoll(s, s');
    if s.popup.reply.Some? && !s.opener.settled {
      var i: nat :| ReplyAhead(c, s, i);
      assert ReplyAhead(c, s', i);
    }
    if !IsOpaque(c.appOrigin) && Waiting(s') {
      assert ForeignToPopup(s.toPopup[0]);
      if i: nat :| ReadyInFlight(c, s, i) {
        assert ReadyInFlight(c, s', i);
      } else {
        var i: nat :| RequestInFlight(c, s, i);
        assert i > 0;
        assert RequestInFlight(c, s', i - 1);
      }
    }
  }

  lemma LoseInv(c: Config, s: System)
    requires Inv(c, s) && s.toPopup != [] && !s.popup.listening
    ensures Inv(c, Apply(c, s, LoseUnloaded))
  {
    KeepPoll(s, Apply(c, s, LoseUnloaded));
  }

  lemma ReplyInv(c: Config, s: System, content: string)
    requires Valid(c) && Inv(c, s) && AuthPopup.CanReply(s.popup)
    ensures Inv(c, Apply(c, s, PopupReplies(content)))
  {
    var s' := Apply(c, s, PopupReplies(content));
    PopupAnswers(c, s, content);
    KeepPoll(s, s');
    assert ReplyAhead(c, s', |s.toOpener|);
  }

  lemma RunOpenerPosted(c: Config, s: System)
    requires Valid(c) && Inv(c, s) && s.toOpener != []
    ensures var s' := RunOpener(c, s);
      forall i :: 0 <= i < |s'.toPopup| ==> ForeignToPopup(s'.toPopup[i]) || s'.toPopup[i] == RequestEvent(c)
  {
    OpenerPosts(c, s);
  }

  lemma RunOpenerTasks(c: Config, s: System)
    requires Valid(c) && Inv(c, s) && s.toOpener != []
    ensures var s' := RunOpener(c, s); forall i :: 0 <= i < |s'.toOpener| ==> TaskInv(c, s', s'.toOpener[i])
  {
    var s' := RunOpener(c, s);
    forall i | 0 <= i < |s'.toOpener| ensures TaskInv(c, s', s'.toOpener[i]) {
      if i + 1 < |s.toOpener| {
        assert s'.toOpener[i] == s.toOpener[i + 1];
        assert TaskInv(c, s, s.toOpener[i + 1]);
      }
    }
  }

  lemma RunOpenerQueues(c: Config, s: System)
    requires Valid(c) && Inv(c, s) && s.toOpener != []
    ensures QueueInv(c, RunOpener(c, s)) && OpenerInv(c, RunOpener(c, s).opener)
  {
    RunOpenerPosted(c, s);
    RunOpenerTasks(c, s);
  }

  lemma RunOpenerOutcome(c: Config, s: System)
    requires Valid(c) && Inv(c, s) && s.toOpener != []
    ensures OutcomeInv(RunOpener(c, s)) && PopupInv(c, RunOpener(c, s).popup)
  {
    assert TaskInv(c, s, s.toOpener[0]);
  }

  lemma RunOpenerRace(c: Config, s: System)
    requires Valid(c) && Inv(c, s) && s.toOpener != []
    ensures RaceInv(c, RunOpener(c, s))
  {
    OpenerPosts(c, s);
    var s' := RunOpener(c, s);
    assert TaskInv(c, s, s.toOpener[0]);
    if s.popup.reply.Some? && !s.opener.settled {
      var i: nat :| ReplyAhead(c, s, i);
      assert s.toOpener[0] == DeferredReject ==> i != 0;
      assert s.toOpener[0] != DeferredReject;
      if i > 0 {
        assert s'.toOpener[i - 1] == s.toOpener[i];
        assert ReplyAhead(c, s', i - 1);
      } else {
        assert s'.opener.settled;
      }
    }
  }

  lemma RunOpenerHandshake(c: Config, s: System)
    requires Valid(c) && Inv(c, s) && s.toOpener != []
    ensures HandshakeInv(c, RunOpener(c, s))
  {
    OpenerPosts(c, s);
    var s' := RunOpener(c, s);
    if !IsOpaque(c.appOrigin) && Waiting(s') {
      if i: nat :| RequestInFlight(c, s, i) {
        assert RequestInFlight(c, s', i);
      } else {
        var i: nat :| ReadyInFlight(c, s, i);
        if i > 0 {
          assert ReadyInFlight(c, s', i - 1);
        } else {
          assert RequestInFlight(c, s', |s.toPopup|);
        }
      }
    }
  }

  lemma RunOpenerPoll(c: Config, s: System)
    requires Valid(c) && Inv(c, s) && s.toOpener != []
    ensures PollInv(RunOpener(c, s))
  {
    var s' := RunOpener(c, s);
    if !s'.opener.settled && !s'.opener.polling {
      if s.opener.polling {
        assert DeferredAt(s', |s'.toOpener| - 1);
      } else {
        var i: nat :| DeferredAt(s, i);
        assert DeferredAt(s', i - 1);
      }
    }
  }

  lemma StepInv(c: Config, s: System, step: Step)
    requires Valid(c) && Inv(c, s)
    ensures Inv(c, Apply(c, s, step))
  {
    match step
    case QueuePoll => AppendTask(c, s, PollTick);
    case QueueTimeout => AppendTask(c, s, TimeoutFires);
    case RunOpenerTask =>
      if s.toOpener != [] {
        RunOpenerQueues(c, s);
        RunOpenerOutcome(c, s);
        RunOpenerRace(c, s);
        RunOpenerHandshake(c, s);
        RunOpenerPoll(c, s);
      }
    case LoadPopup => if !s.popup.listening && !s.popup.closed { LoadInv(c, s); }
    case RunPopupMessage => if s.toPopup != [] && s.popup.listening && !s.popup.closed { PopupMessageInv(c, s); }
    case LoseUnloaded => if s.toPopup != [] && !s.popup.listening { LoseInv(c, s); }
    case PopupReplies(content) => if AuthPopup.CanReply(s.popup) { ReplyInv(c, s, content); }
    case UserCloses => CloseInv(c, s);
    case InjectIntoOpener(e) => if ForeignToOpener(c, e) { AppendTask(c, s, Deliver(e)); }
    case InjectIntoPopup(e) =>
      if ForeignToPopup(e) {
        var s' := s.(toPopup := s.toPopup + [e]);
        KeepPoll(s, s');
        KeepHandshake(c, s, s');
        if s.popup.reply.Some? && !s.opener.settled {
          var i: nat :| ReplyAhead(c, s, i);
          assert ReplyAhead(c, s', i);
        }
      }
  }

  lemma {:induction false} RunInv(c: Config, s: System, steps: seq<Step>)
    requires Valid(c) && Inv(c, s)
    ensures Inv(c, RunFrom(c, s, steps))
    decreases |steps|
  {
    if steps != [] {
      RunInv(c, s, steps[..|steps| - 1]);
      StepInv(c, RunFrom(c, s, steps[..|steps| - 1]), steps[|steps| - 1]);
    }
  }

  lemma Reachable(c: Config, steps: seq<Step>)
    requires Valid(c)
    ensures Inv(c, Run(c, steps))
  {
    InitInv(c);
    RunInv(c, Init(c), steps);
  }

  // ---- the main results ----

  /** No lost request: while the popup waits for its request and the opener is unsettled, either the popup's `ready`
      or the request itself is in flight. */
  lemma NoLostRequest(c: Config, steps: seq<Step>)
    requires Valid(c) && !IsOpaque(c.appOrigin)
    ensures var s := Run(c, steps);
      Waiting(s) ==> FromPopup(c, READY) in s.toOpener || RequestEvent(c) in s.toPopup
  {
    Reachable(c, steps);
    var s := Run(c, steps);
    if Waiting(s) {
      if i: nat :| ReadyInFlight(c, s, i) {
        assert s.toOpener[i] == FromPopup(c, READY);
      } else {
        var i: nat :| RequestInFlight(c, s, i);
        assert s.toPopup[i] == RequestEvent(c);
      }
    }
  }

  /** The condition on the app's origin is exact: an opener with an opaque origin is never served. */
  lemma OpaqueOpenerIsNeverServed(c: Config, steps: seq<Step>)
    requires Valid(c) && IsOpaque(c.appOrigin)
    ensures var s := Run(c, steps);
      s.popup.driven == [] && s.popup.reply == None && !(s.opener.outcome.Some? && s.opener.outcome.value.Resolved?)
  {
    Reachable(c, steps);
  }

  /** Composed agreement. At most one request is ever driven, and it is this one; the popup sends at most one reply,
      of the request's kind; the opener resolves with exactly that reply. */
  lemma Agreement(c: Config, steps: seq<Step>)
    requires Valid(c)
    ensures var s := Run(c, steps);
      && (s.popup.driven == [] || s.popup.driven == [c.request])
      && (s.opener.outcome.Some? && s.opener.outcome.value.Resolved? ==>
            var d := s.opener.outcome.value.data;
            s.popup.driven == [c.request] && d.Message? && d.kind == c.request.kind
            && s.popup.posts == [Post(READY, "*"), Post(d, c.appOrigin)])
  {
    Reachable(c, steps);
  }

  /** Only `ready` is ever posted to "*"; every other post names the app's own origin. */
  lemma PostsAreTargeted(c: Config, steps: seq<Step>)
    requires Valid(c)
    ensures forall p :: p in Run(c, steps).popup.posts ==>
      if p.data == READY then p.target == "*" else p.target == c.appOrigin && Some(p.data) == Run(c, steps).popup.reply
  {
    Reachable(c, steps);
  }

  /** No challenge, no reply: an authorize request without a nonce is never answered. */
  lemma NoNonceNoReply(c: Config, steps: seq<Step>)
    requires Valid(c) && c.request.kind == Authorize && c.request.body == ""
    ensures var s := Run(c, steps);
      s.popup.reply == None && !(s.opener.outcome.Some? && s.opener.outcome.value.Resolved?)
  {
    Reachable(c, steps);
  }

  /** Any other request that is being driven can be answered, once, while the popup is open. */
  lemma DrivenCanReply(c: Config, steps: seq<Step>)
    requires Valid(c) && !(c.request.kind == Authorize && c.request.body == "")
    ensures var p := Run(c, steps).popup;
      p.driven == [c.request] && p.reply == None && !p.closed ==> AuthPopup.CanReply(p)
  {
    Reachable(c, steps);
  }

  /** A rejection says why: closed when a deferred reject settles the promise, timed out when the timeout does. */
  lemma RejectionSaysWhy(c: Config, steps: seq<Step>)
    requires Valid(c)
    ensures var s := Run(c, steps);
      s.toOpener != [] && !s.opener.settled ==>
        var outcome := RunOpener(c, s).opener.outcome;
        && (s.toOpener[0] == DeferredReject ==> outcome == Some(WebChannel.Rejected(WebChannel.CLOSED)))
        && (s.toOpener[0] == TimeoutFires ==> outcome == Some(WebChannel.Rejected(WebChannel.TIMED_OUT)))
        && (s.toOpener[0] == PollTick ==> outcome == None)
  {
    Reachable(c, steps);
  }

  /** The opener posts nothing but its request, and only to the auth origin. */
  lemma OpenerPostsItsRequest(c: Config, steps: seq<Step>)
    requires Valid(c)
    ensures forall p :: p in Run(c, steps).opener.posts ==> p == Post(c.request, c.authOrigin)
  {
    Reachable(c, steps);
  }

  /** The promise is settled by at most one call, and the outcome says which. */
  lemma SettledOnce(c: Config, steps: seq<Step>)
    requires Valid(c)
    ensures var o := Run(c, steps).opener;
      o.calls <= 1 && (o.calls == 1 <==> o.outcome.Some?)
  {
    Reachable(c, steps);
  }

  /** After settling, no listener, timer or queued task changes anything in the opener, whatever happens next. */
  lemma {:induction false} SettledIsFinal(c: Config, before: seq<Step>, after: seq<Step>)
    requires Valid(c) && Run(c, before).opener.settled
    ensures RunFrom(c, Run(c, before), after).opener == Run(c, before).opener
    decreases |after|
  {
    if after != [] {
      SettledIsFinal(c, before, after[..|after| - 1]);
      Reachable(c, before);
    }
  }

  /** The reply beats the close: once the popup has replied, the promise resolves with that reply or times out, in
      every interleaving of polls, closes and deferred rejects; and it stays open only while the reply is queued. */
  lemma ReplyBeatsClose(c: Config, steps: seq<Step>)
    requires Valid(c) && Run(c, steps).popup.reply.Some?
    ensures var s := Run(c, steps);
      var reply := s.popup.reply.value;
      match s.opener.outcome
      case None => FromPopup(c, reply) in s.toOpener
      case Some(x) => x == WebChannel.Resolved(reply) || x == WebChannel.Rejected(WebChannel.TIMED_OUT)
  {
    Reachable(c, steps);
    var s := Run(c, steps);
    if !s.opener.settled {
      var i: nat :| ReplyAhead(c, s, i);
      assert s.toOpener[i] == FromPopup(c, s.popup.reply.value);
    }
  }

  // ---- delivery: what is in flight is enough ----

  function Repeat(step: Step, n: nat): seq<Step> {
    seq(n, _ => step)
  }

  lemma {:induction false} RunAppends(c: Config, s: System, a: seq<Step>, b: seq<Step>)
    ensures RunFrom(c, s, a + b) == RunFrom(c, RunFrom(c, s, a), b)
    decreases |b|
  {
    if b == [] {
      assert a + b == a;
    } else {
      assert (a + b)[..|a + b| - 1] == a + b[..|b| - 1];
      RunAppends(c, s, a, b[..|b| - 1]);
    }
  }

  lemma {:induction false} DrainOpener(c: Config, s: System, k: nat)
    requires Valid(c) && Inv(c, s) && Waiting(s) && k <= |s.toOpener|
    ensures var t := RunFrom(c, s, Repeat(RunOpenerTask, k));
      Inv(c, t) && (t.opener.settled || (Waiting(t) && |t.toOpener| == |s.toOpener| - k))
  {
    RunInv(c, s, Repeat(RunOpenerTask, k));
    if k > 0 {
      DrainOpener(c, s, k - 1);
      assert Repeat(RunOpenerTask, k)[..k - 1] == Repeat(RunOpenerTask, k - 1);
    }
  }

  lemma {:induction false} DrainPopup(c: Config, s: System, k: nat)
    requires Valid(c) && Inv(c, s) && Waiting(s) && s.toOpener == [] && k <= |s.toPopup|
    ensures var t := RunFrom(c, s, Repeat(RunPopupMessage, k));
      Inv(c, t) && (t.popup.pending || (Waiting(t) && t.toOpener == [] && |t.toPopup| == |s.toPopup| - k))
  {
    RunInv(c, s, Repeat(RunPopupMessage, k));
    if k > 0 {
      DrainPopup(c, s, k - 1);
      assert Repeat(RunPopupMessage, k)[..k - 1] == Repeat(RunPopupMessage, k - 1);
    }
  }

  /** Never stuck on "Loading": from every reachable waiting state, running the tasks already queued at the opener and
      then the messages already sent to the popup leaves the opener settled or its request driven. */
  lemma WaitingEnds(c: Config, steps: seq<Step>) returns (k: nat, m: nat)
    requires Valid(c) && !IsOpaque(c.appOrigin) && Waiting(Run(c, steps))
    ensures var t := RunFrom(c, Run(c, steps), Repeat(RunOpenerTask, k) + Repeat(RunPopupMessage, m));
      t.opener.settled || t.popup.driven == [c.request]
  {
    Reachable(c, steps);
    var s := Run(c, steps);
    k := |s.toOpener|;
    DrainOpener(c, s, k);
    var t := RunFrom(c, s, Repeat(RunOpenerTask, k));
    m := if t.opener.settled then 0 else |t.toPopup|;
    RunAppends(c, s, Repeat(RunOpenerTask, k), Repeat(RunPopupMessage, m));
    if !t.opener.settled {
      DrainPopup(c, t, m);
    }
  }

  // ---- a session always comes to an end ----

  lemma HeadLeaves(c: Config, s: System)
    requires s.toOpener != []
    ensures s.toOpener[1..] <= RunOpener(c, s).toOpener
    ensures s.popup.closed ==> RunOpener(c, s).popup.closed
  {
  }

  lemma SuffixAfter<T>(q: seq<T>, i: nat, now: seq<T>, next: seq<T>)
    requires 0 < i <= |q| && q[i - 1..] <= now && now[1..] <= next
    ensures q[i..] <= next
  {
    assert q[i..] == q[i - 1..][1..];
    assert forall j :: 0 <= j < |q| - i ==> now[1..][j] == now[j + 1];
  }

  /** Every queued task gets its turn. */
  lemma {:induction false} TurnComes(c: Config, s: System, i: nat)
    requires Valid(c) && Inv(c, s) && i <= |s.toOpener|
    ensures var t := RunFrom(c, s, Repeat(RunOpenerTask, i));
      Inv(c, t) && s.toOpener[i..] <= t.toOpener && (s.popup.closed ==> t.popup.closed)
  {
    if i > 0 {
      TurnComes(c, s, i - 1);
      assert Repeat(RunOpenerTask, i)[..i - 1] == Repeat(RunOpenerTask, i - 1);
      var now := RunFrom(c, s, Repeat(RunOpenerTask, i - 1));
      StepInv(c, now, RunOpenerTask);
      HeadLeaves(c, now);
      SuffixAfter(s.toOpener, i, now.toOpener, RunOpener(c, now).toOpener);
    }
  }

  lemma RunsMore(c: Config, s: System, a: nat, b: nat)
    ensures RunFrom(c, s, Repeat(RunOpenerTask, a + b)) == RunFrom(c, RunFrom(c, s, Repeat(RunOpenerTask, a)), Repeat(RunOpenerTask, b))
  {
    assert Repeat(RunOpenerTask, a + b) == Repeat(RunOpenerTask, a) + Repeat(RunOpenerTask, b);
    RunAppends(c, s, Repeat(RunOpenerTask, a), Repeat(RunOpenerTask, b));
  }

  lemma OneRun(c: Config, s: System)
    ensures RunFrom(c, s, Repeat(RunOpenerTask, 1)) == Apply(c, s, RunOpenerTask)
  {
    assert Repeat(RunOpenerTask, 1)[..0] == [];
  }

  lemma DeferredEnds(c: Config, s: System, i: nat)
    requires Valid(c) && Inv(c, s) && DeferredAt(s, i)
    ensures RunFrom(c, s, Repeat(RunOpenerTask, i + 1)).opener.settled
  {
    TurnComes(c, s, i);
    var t := RunFrom(c, s, Repeat(RunOpenerTask, i));
    RunsMore(c, s, i, 1);
    OneRun(c, t);
    assert t.toOpener[0] == s.toOpener[i..][0];
  }

  /** The popup is closed and the next thing the opener does is to look. */
  ghost predicate AboutToPoll(c: Config, s: System) {
    Inv(c, s) && s.popup.closed && s.toOpener != [] && s.toOpener[0] == PollTick
  }

  lemma PollHead(c: Config, s: System)
    requires Valid(c) && AboutToPoll(c, s)
    ensures var u := RunOpener(c, s);
      Inv(c, u) && (u.opener.settled || exists k: nat :: DeferredAt(u, k))
  {
    StepInv(c, s, RunOpenerTask);
  }

  lemma PollComes(c: Config, s: System, i: nat)
    requires Valid(c) && Inv(c, s) && s.popup.closed && i < |s.toOpener| && s.toOpener[i] == PollTick
    ensures AboutToPoll(c, RunFrom(c, s, Repeat(RunOpenerTask, i)))
  {
    TurnComes(c, s, i);
    var t := RunFrom(c, s, Repeat(RunOpenerTask, i));
    assert t.toOpener[0] == s.toOpener[i..][0];
  }

  lemma PollEnds(c: Config, s: System, i: nat) returns (n: nat)
    requires Valid(c) && Inv(c, s) && s.popup.closed && i < |s.toOpener| && s.toOpener[i] == PollTick
    ensures RunFrom(c, s, Repeat(RunOpenerTask, n)).opener.settled
  {
    var t := RunFrom(c, s, Repeat(RunOpenerTask, i));
    assert AboutToPoll(c, t) by { PollComes(c, s, i); }
    n := PollFromHead(c, t);
    RunsMore(c, s, i, n);
    n := i + n;
  }

  lemma PollFromHead(c: Config, t: System) returns (n: nat)
    requires Valid(c) && AboutToPoll(c, t)
    ensures RunFrom(c, t, Repeat(RunOpenerTask, n)).opener.settled
  {
    PollHead(c, t);
    var m := AfterPoll(c, RunOpener(c, t));
    OneRun(c, t);
    RunsMore(c, t, 1, m);
    n := 1 + m;
  }

  lemma AfterPoll(c: Config, u: System) returns (n: nat)
    requires Valid(c) && Inv(c, u) && (u.opener.settled || exists k: nat :: DeferredAt(u, k))
    ensures RunFrom(c, u, Repeat(RunOpenerTask, n)).opener.settled
  {
    if u.opener.settled {
      n := 0;
    } else {
      var k: nat :| DeferredAt(u, k);
      DeferredEnds(c, u, k);
      n := k + 1;
    }
  }

  /** A closed popup always ends the session: from every reachable state in which the popup is closed, one more poll and
      the tasks then queued settle the promise. */
  lemma CloseEnds(c: Config, steps: seq<Step>) returns (n: nat)
    requires Valid(c) && Run(c, steps).popup.closed
    ensures RunFrom(c, Apply(c, Run(c, steps), QueuePoll), Repeat(RunOpenerTask, n)).opener.settled
  {
    Reachable(c, steps);
    var s := Run(c, steps);
    StepInv(c, s, QueuePoll);
    var q := Apply(c, s, QueuePoll);
    if q.opener.settled {
      n := 0;
    } else if q.opener.polling {
      n := PollEnds(c, q, |s.toOpener|);
    } else {
      var i: nat :| DeferredAt(q, i);
      DeferredEnds(c, q, i);
      n := i + 1;
    }
  }

  /** The timeout always ends the session. */
  lemma TimeoutEnds(c: Config, steps: seq<Step>)
    requires Valid(c)
    ensures var s := Run(c, steps);
      RunFrom(c, Apply(c, s, QueueTimeout), Repeat(RunOpenerTask, |s.toOpener| + 1)).opener.settled
  {
    Reachable(c, steps);
    var s := Run(c, steps);
    var q := Apply(c, s, QueueTimeout);
    StepInv(c, s, QueueTimeout);
    if s.opener.settled {
      SettledStays(c, q, Repeat(RunOpenerTask, |s.toOpener| + 1));
    } else {
      TimeoutQueuedEnds(c, q, |s.toOpener|);
    }
  }

  lemma TimeoutHeadEnds(c: Config, s: System)
    requires Valid(c) && Inv(c, s) && s.toOpener != [] && s.toOpener[0] == TimeoutFires
    ensures RunOpener(c, s).opener.settled
  {
  }

  lemma TimeoutQueuedEnds(c: Config, s: System, i: nat)
    requires Valid(c) && Inv(c, s) && i < |s.toOpener| && s.toOpener[i] == TimeoutFires
    ensures RunFrom(c, s, Repeat(RunOpenerTask, i + 1)).opener.settled
  {
    TurnComes(c, s, i);
    var t := RunFrom(c, s, Repeat(RunOpenerTask, i));
    RunsMore(c, s, i, 1);
    OneRun(c, t);
    assert t.toOpener[0] == s.toOpener[i..][0];
    TimeoutHeadEnds(c, t);
  }

  /** A reply always ends the session: the tasks queued when it is there settle the promise. */
  lemma ReplyEnds(c: Config, steps: seq<Step>) returns (n: nat)
    requires Valid(c) && Run(c, steps).popup.reply.Some?
    ensures RunFrom(c, Run(c, steps), Repeat(RunOpenerTask, n)).opener.settled
  {
    Reachable(c, steps);
    var s := Run(c, steps);
    n := 0;
    if !s.opener.settled {
      var i: nat :| ReplyAhead(c, s, i);
      ReplyQueuedEnds(c, s, i);
      n := i + 1;
    }
  }

  ghost predicate ReplyNext(c: Config, s: System) {
    Inv(c, s) && s.popup.reply.Some? && s.toOpener != [] && s.toOpener[0] == FromPopup(c, s.popup.reply.value)
  }

  lemma ReplyHeadEnds(c: Config, s: System)
    requires Valid(c) && ReplyNext(c, s)
    ensures RunOpener(c, s).opener.settled
  {
  }

  lemma ReplyComes(c: Config, s: System, i: nat)
    requires Valid(c) && Inv(c, s) && i < |s.toOpener| && s.popup.reply.Some?
    requires s.toOpener[i] == FromPopup(c, s.popup.reply.value)
    ensures ReplyNext(c, RunFrom(c, s, Repeat(RunOpenerTask, i)))
  {
    TurnComes(c, s, i);
    RunKeepsReply(c, s, i);
    var t := RunFrom(c, s, Repeat(RunOpenerTask, i));
    assert t.toOpener[0] == s.toOpener[i..][0];
  }

  lemma ReplyQueuedEnds(c: Config, s: System, i: nat)
    requires Valid(c) && Inv(c, s) && i < |s.toOpener| && s.popup.reply.Some?
    requires s.toOpener[i] == FromPopup(c, s.popup.reply.value)
    ensures RunFrom(c, s, Repeat(RunOpenerTask, i + 1)).opener.settled
  {
    ReplyComes(c, s, i);
    var t := RunFrom(c, s, Repeat(RunOpenerTask, i));
    RunsMore(c, s, i, 1);
    OneRun(c, t);
    ReplyHeadEnds(c, t);
  }

  lemma {:induction false} RunKeepsReply(c: Config, s: System, i: nat)
    ensures RunFrom(c, s, Repeat(RunOpenerTask, i)).popup.reply == s.popup.reply
  {
    if i > 0 {
      RunKeepsReply(c, s, i - 1);
      assert Repeat(RunOpenerTask, i)[..i - 1] == Repeat(RunOpenerTask, i - 1);
    }
  }

  lemma {:induction false} SettledStays(c: Config, s: System, steps: seq<Step>)
    requires Valid(c) && Inv(c, s) && s.opener.settled
    ensures RunFrom(c, s, steps).opener == s.opener
    decreases |steps|
  {
    if steps != [] { SettledStays(c, s, steps[..|steps| - 1]); }
  }
}
