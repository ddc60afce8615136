/** The popup's half of the protocol: `runAuthPopup` (auth-popup/ceremony.ts). */
module AuthPopup {
  import opened Wrappers
  import opened Messages

  /** `driven` lists the requests handed to the ceremony, `posts` everything sent to the opener. */
  datatype PopupPage = PopupPage(
    listening: bool,
    closed: bool,
    pinnedOrigin: Option<string>,
    pending: bool,
    driven: seq<Data>,
    reply: Option<Data>,
    posts: seq<Post>)

  const Blank := PopupPage(false, false, None, false, [], None, [])

  /** The page's script runs: listener attached, `ready` posted to any origin. */
  function Start(p: PopupPage): PopupPage {
    p.(listening := true, posts := p.posts + [Post(READY, "*")])
  }

  function OnMessage(p: PopupPage, e: Event): PopupPage {
    if e.source != OpenerWindow || IsOpaque(e.origin) then p
    else if p.pinnedOrigin.Some? && p.pinnedOrigin.value != e.origin then p
    else
      var q := p.(pinnedOrigin := Some(e.origin));
      if !IsRequest(e.data) || q.pending then q
      else q.(pending := true, driven := q.driven + [e.data])
  }

  /** A sign request always ends in a reply; an authorize request can only be answered when it carries a nonce. */
  predicate CanReply(p: PopupPage) {
    p.listening && !p.closed && p.driven != [] && p.pinnedOrigin.Some? && p.reply.None?
    && p.driven[0].Message? && (p.driven[0].kind == Authorize ==> p.driven[0].body != "")
  }

  function Answer(request: Data, content: string): Data
    requires request.Message?
  {
    Message(request.kind, content)
  }

  function Reply(p: PopupPage, content: string): PopupPage
    requires CanReply(p)
  {
    var answer := Answer(p.driven[0], content);
    p.(reply := Some(answer),
       posts := p.posts + [Post(answer, p.pinnedOrigin.value)],
       closed := p.driven[0].kind == Sign)
  }

  // ---- what a page makes of any sequence of messages ----

  function Receive(p: PopupPage, events: seq<Event>): PopupPage
    decreases |events|
  {
    if events == [] then p else Receive(OnMessage(p, events[0]), events[1..])
  }

  /** The origin of the first message from the opener's window that names one. */
  function FirstOrigin(events: seq<Event>): (o: Option<string>)
    ensures o.Some? ==> !IsOpaque(o.value)
  {
    if events == [] then None
    else if events[0].source == OpenerWindow && !IsOpaque(events[0].origin) then Some(events[0].origin)
    else FirstOrigin(events[1..])
  }

  /** The first request from the opener's window under this origin. */
  function FirstRequest(events: seq<Event>, origin: string): seq<Data> {
    if events == [] then []
    else if events[0].source == OpenerWindow && events[0].origin == origin && IsRequest(events[0].data) then [events[0].data]
    else FirstRequest(events[1..], origin)
  }

  lemma {:induction false} PinnedReceives(p: PopupPage, events: seq<Event>)
    requires p.pinnedOrigin.Some? && !IsOpaque(p.pinnedOrigin.value)
    ensures var q := Receive(p, events);
      && q.pinnedOrigin == p.pinnedOrigin && q.reply == p.reply && q.posts == p.posts && q.closed == p.closed
      && q.driven == p.driven + if p.pending then [] else FirstRequest(events, p.pinnedOrigin.value)
    decreases |events|
  {
    if events != [] {
      PinnedReceives(OnMessage(p, events[0]), events[1..]);
    }
  }

  /** Whatever arrives: the page pins the first origin that speaks through its opener's window and drives the first
      request from there, and nothing else. */
  lemma {:induction false} FirstOriginRules(p: PopupPage, events: seq<Event>)
    requires p == Start(Blank)
    ensures var q := Receive(p, events);
      && q.pinnedOrigin == FirstOrigin(events)
      && q.driven == (if FirstOrigin(events).None? then [] else FirstRequest(events, FirstOrigin(events).value))
      && q.posts == p.posts && q.reply == None && !q.closed
    decreases |events|
  {
    if events != [] {
      var q := OnMessage(p, events[0]);
      if q.pinnedOrigin.Some? {
        PinnedReceives(q, events[1..]);
      } else {
        FirstOriginRules(q, events[1..]);
      }
    }
  }

  /** A reply goes once, to the pinned origin, in the request's kind; after it a signing page closes and an authorizing
      one stays. */
  lemma ReplyOnce(p: PopupPage, content: string)
    requires CanReply(p)
    ensures var q := Reply(p, content);
      var answer := Message(p.driven[0].kind, content);
      && q.posts == p.posts + [Post(answer, p.pinnedOrigin.value)] && q.reply == Some(answer)
      && (q.closed <==> p.driven[0].kind == Sign)
      && !CanReply(q)
  {
  }

  /** The same page as the closure runs it. */
  class Page {
    var listening: bool
    var closed: bool
    var pinnedOrigin: Option<string>
    var pending: bool
    var driven: seq<Data>
    var reply: Option<Data>
    var posts: seq<Post>

    function State(): PopupPage
      reads this
    {
      PopupPage(listening, closed, pinnedOrigin, pending, driven, reply, posts)
    }

    constructor ()
      ensures State() == Start(Blank)
    {
      closed, pinnedOrigin, pending, driven, reply := false, None, false, [], None;
      listening := true;
      posts := [Post(READY, "*")];
    }

    method HandleMessage(e: Event)
      modifies this
      ensures State() == OnMessage(old(State()), e)
    {
      if e.source != OpenerWindow { return; }
      if IsOpaque(e.origin) { return; }
      if pinnedOrigin.None? {
        pinnedOrigin := Some(e.origin);
      } else if e.origin != pinnedOrigin.value {
        return;
      }
      if e.data.NotAnObject? { return; }
      if e.data.kind != Authorize && e.data.kind != Sign { return; }
      if pending { return; }
      pending := true;
      driven := driven + [e.data];
    }

    method SendReply(content: string)
      requires CanReply(State())
      modifies this
      ensures State() == Reply(old(State()), content)
    {
      var answer := Answer(driven[0], content);
      reply := Some(answer);
      posts := posts + [Post(answer, pinnedOrigin.value)];
      if driven[0].kind == Sign { closed := true; }
    }
  }
}
