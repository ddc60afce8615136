/** The opener's half of the popup protocol: `createWebChannel().open` (channel/channels/web.ts). */
module WebChannel {
  import opened Wrappers
  import opened Messages

  const TIMED_OUT := "Popup timed out: no reply received within the allowed window"
  const CLOSED := "Signing popup was closed"

  datatype Settlement = Resolved(data: Data) | Rejected(reason: string)

  /** One `open` call. `calls` counts resolve/reject calls; the promise takes the first, kept in `outcome`. */
  datatype OpenerState = OpenerState(
    settled: bool,
    timerArmed: bool,
    polling: bool,
    listening: bool,
    closesPopup: bool,
    posts: seq<Post>,
    outcome: Option<Settlement>,
    calls: nat)

  function Opened(request: Data, authOrigin: string): OpenerState {
    OpenerState(false, true, true, true, false, [Post(request, authOrigin)], None, 0)
  }

  function Cleanup(o: OpenerState): OpenerState {
    if o.settled then o
    else o.(settled := true, timerArmed := false, polling := false, listening := false, closesPopup := true)
  }

  function Settle(o: OpenerState, s: Settlement): OpenerState {
    o.(outcome := if o.outcome.None? then Some(s) else o.outcome, calls := o.calls + 1)
  }

  function OnMessage(o: OpenerState, request: Data, authOrigin: string, e: Event): OpenerState {
    if e.source != PopupWindow || e.origin != authOrigin || e.data.NotAnObject? then o
    else if e.data.kind == Ready then o.(posts := o.posts + [Post(request, authOrigin)])
    else if e.data.kind != Sign && e.data.kind != Authorize then o
    else Settle(Cleanup(o), Resolved(e.data))
  }

  function OnTimeout(o: OpenerState): OpenerState {
    Settle(Cleanup(o), Rejected(TIMED_OUT))
  }

  function OnPoll(o: OpenerState, popupClosed: bool): OpenerState {
    if popupClosed then o.(polling := false) else o
  }

  function OnDeferred(o: OpenerState): OpenerState {
    if o.settled then o else Settle(Cleanup(o), Rejected(CLOSED))
  }

  /** The same session as the closure runs it: its variables, and one method per callback. */
  class Session {
    const request: Data
    const authOrigin: string
    var settled: bool
    var timerArmed: bool
    var polling: bool
    var listening: bool
    var closesPopup: bool
    var posts: seq<Post>
    var outcome: Option<Settlement>
    var calls: nat

    function State(): OpenerState
      reads this
    {
      OpenerState(settled, timerArmed, polling, listening, closesPopup, posts, outcome, calls)
    }

    constructor (request: Data, authOrigin: string)
      ensures this.request == request && this.authOrigin == authOrigin
      ensures State() == Opened(request, authOrigin)
    {
      this.request, this.authOrigin := request, authOrigin;
      settled, closesPopup, outcome, calls := false, false, None, 0;
      timerArmed := true;
      polling := true;
      listening := true;
      posts := [Post(request, authOrigin)];
    }

    method RunCleanup()
      modifies this
      ensures State() == Cleanup(old(State()))
    {
      if settled { return; }
      settled := true;
      timerArmed := false;
      polling := false;
      listening := false;
      closesPopup := true;
    }

    method Complete(s: Settlement)
      modifies this
      ensures State() == Settle(old(State()), s)
    {
      if outcome.None? { outcome := Some(s); }
      calls := calls + 1;
    }

    method HandleMessage(e: Event)
      modifies this
      ensures State() == OnMessage(old(State()), request, authOrigin, e)
    {
      if e.source != PopupWindow { return; }
      if e.origin != authOrigin { return; }
      if e.data.NotAnObject? { return; }
      if e.data.kind == Ready {
        posts := posts + [Post(request, authOrigin)];
        return;
      }
      if e.data.kind != Sign && e.data.kind != Authorize { return; }
      RunCleanup();
      Complete(Resolved(e.data));
    }

    method HandleTimeout()
      modifies this
      ensures State() == OnTimeout(old(State()))
    {
      RunCleanup();
      Complete(Rejected(TIMED_OUT));
    }

    /** `deferred` tells whether a zero-delay reject was scheduled. */
    method HandlePoll(popupClosed: bool) returns (deferred: bool)
      modifies this
      ensures State() == OnPoll(old(State()), popupClosed) && deferred == popupClosed
    {
      deferred := popupClosed;
      if popupClosed { polling := false; }
    }

    method HandleDeferred()
      modifies this
      ensures State() == OnDeferred(old(State()))
    {
      if settled { return; }
      RunCleanup();
      Complete(Rejected(CLOSED));
    }
  }
}
