/** The client's subscriber set and the notifications after login and logout (client/client.ts). */
module Client {
  import opened Wrappers

  /** The subscribers a notification reaches: in order, up to and with the first that throws. */
  function Called(listeners: seq<nat>, throwing: set<nat>): seq<nat> {
    if listeners == [] then []
    else if listeners[0] in throwing then [listeners[0]]
    else [listeners[0]] + Called(listeners[1..], throwing)
  }

  /** A subscriber is reached exactly when nobody before it throws; the calls are the subscribers in order. */
  lemma {:induction false} ReachedIff(listeners: seq<nat>, throwing: set<nat>, i: nat)
    requires i < |listeners|
    ensures Called(listeners, throwing) <= listeners
    ensures i < |Called(listeners, throwing)| <==> forall j :: 0 <= j < i ==> listeners[j] !in throwing
  {
    if listeners[0] !in throwing && |listeners| > 1 {
      ReachedIff(listeners[1..], throwing, if i > 0 then i - 1 else 0);
      assert listeners == [listeners[0]] + listeners[1..];
      assert forall j :: 0 <= j < i - 1 ==> listeners[1..][j] == listeners[j + 1];
    }
  }

  class AvokClient {
    var listeners: seq<nat>
    var called: seq<nat>

    constructor ()
      ensures listeners == [] && called == []
    {
      listeners, called := [], [];
    }

    /** A set: subscribing twice is subscribing once. */
    method Subscribe(l: nat)
      modifies this`listeners
      ensures listeners == if l in old(listeners) then old(listeners) else old(listeners) + [l]
    {
      if l !in listeners { listeners := listeners + [l]; }
    }

    /** False when a subscriber threw. */
    method Notify(throwing: set<nat>) returns (ok: bool)
      modifies this`called
      ensures called == old(called) + Called(listeners, throwing)
      ensures ok <==> forall i :: 0 <= i < |listeners| ==> listeners[i] !in throwing
    {
      for i := 0 to |listeners|
        invariant forall j :: 0 <= j < i ==> listeners[j] !in throwing
        invariant called + Called(listeners[i..], throwing) == old(called) + Called(listeners, throwing)
      {
        assert listeners[i..][0] == listeners[i] && listeners[i..][1..] == listeners[i + 1..];
        ghost var before := called;
        called := called + [listeners[i]];
        if listeners[i] in throwing { return false; }
        assert called + Called(listeners[i + 1..], throwing) == before + ([listeners[i]] + Called(listeners[i + 1..], throwing));
      }
      ok := true;
    }

    /** Only a login that succeeds is announced; a subscriber that throws makes it fail. */
    method Login(outcome: Result<string>, throwing: set<nat>) returns (r: Result<string>)
      modifies this`called
      ensures outcome.Err? ==> r == outcome && called == old(called)
      ensures outcome.Ok? ==> called == old(called) + Called(listeners, throwing)
      ensures r.Ok? <==> outcome.Ok? && forall i :: 0 <= i < |listeners| ==> listeners[i] !in throwing
      ensures r.Ok? ==> r == outcome
    {
      if outcome.Err? { return outcome; }
      var ok := Notify(throwing);
      r := if ok then outcome else Err("a subscriber threw");
    }
  }
}
