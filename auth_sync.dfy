/** Cross-tab session synchronisation over the `auth-sync` broadcast channel:
    the two helpers that post login and logout envelopes, and the message
    handler every tab installs, which applies the envelope to its own store
    and replaces the current route. */
module AuthSync {
  import opened Js
  import opened AuthSlice

  const ChannelName: string := "auth-sync"
  const LoginRoute: string := "/(auth)/login"
  const TabsRoute: string := "/(tabs)"

  /** The envelope `{type, payload}`; a missing payload is `None`. */
  datatype Message = Message(kind: string, payload: Option<SessionPayload>)

  /** The envelope `broadcastLogin(userData)` posts. */
  function LoginMessage(userData: Option<SessionPayload>): Message
  {
    Message("LOGIN", userData)
  }

  /** The envelope `broadcastLogout()` posts: no payload. */
  function LogoutMessage(): Message
  {
    Message("LOGOUT", None)
  }

  /** A broadcast channel, seen as the messages posted on it so far. */
  class Channel {
    const name: string
    var posted: seq<Message>

    constructor (name: string)
      ensures this.name == name && posted == []
    {
      this.name := name;
      posted := [];
    }

    method PostMessage(m: Message)
      modifies this
      ensures posted == old(posted) + [m]
    {
      posted := posted + [m];
    }
  }

  /** The router, seen as the targets passed to `router.replace` so far. */
  class Router {
    var history: seq<string>

    constructor ()
      ensures history == []
    {
      history := [];
    }

    method Replace(href: string)
      modifies this
      ensures history == old(history) + [href]
    {
      history := history + [href];
    }
  }

  method BroadcastLogin(channel: Channel, userData: Option<SessionPayload>)
    requires channel.name == ChannelName
    modifies channel
    ensures channel.posted == old(channel.posted) + [Message("LOGIN", userData)]
  {
    channel.PostMessage(LoginMessage(userData));
  }

  method BroadcastLogout(channel: Channel)
    requires channel.name == ChannelName
    modifies channel
    ensures channel.posted == old(channel.posted) + [Message("LOGOUT", None)]
  {
    channel.PostMessage(LogoutMessage());
  }

  /** What one tab holds that the handler can change: its session and its route log. */
  datatype Tab = Tab(session: AuthState, navigation: seq<string>)

  /** The message reaches a reducer and `router.replace`: a logout, or a login with a payload. */
  predicate Applies(m: Message)
  {
    m.kind == "LOGOUT" || (m.kind == "LOGIN" && m.payload.Some?)
  }

  /** The handler on one tab's state. A login without payload makes `setUser`
      raise before anything changes. */
  function Handle(t: Tab, m: Message): Tab
  {
    if m.kind == "LOGOUT" then
      Tab(Reduce(t.session, Logout), t.navigation + [LoginRoute])
    else if m.kind == "LOGIN" && m.payload.Some? then
      Tab(Reduce(t.session, SetUser(m.payload.value)), t.navigation + [TabsRoute])
    else
      t
  }

  /** `channel.onmessage` as installed by `listenAuthChanges`, on the tab's
      store and router. `raised` is whether the reducer raised. */
  method OnMessage(store: Session, router: Router, m: Message) returns (raised: bool)
    modifies store, router
    ensures raised <==> m.kind == "LOGIN" && m.payload.None?
    ensures Tab(store.State(), router.history) == Handle(Tab(old(store.State()), old(router.history)), m)
  {
    raised := false;
    if m.kind == "LOGOUT" {
      store.Dispatch(Logout);
      router.Replace(LoginRoute);
    }
    if m.kind == "LOGIN" {
      match m.payload
      case None =>
        // destructuring an absent payload raises before navigation
        raised := true;
      case Some(p) =>
        store.Dispatch(SetUser(p));
        router.Replace(TabsRoute);
    }
  }

  /** The session an applied message leaves, whatever the tab held before. */
  function SessionAfter(m: Message): AuthState
    requires Applies(m)
  {
    if m.kind == "LOGOUT" then InitialState()
    else AuthState(m.payload.value.user, m.payload.value.token)
  }

  /** The route an applied message navigates to. */
  function RouteAfter(m: Message): string
    requires Applies(m)
  {
    if m.kind == "LOGOUT" then LoginRoute else TabsRoute
  }

  /** Handling the messages in the order they arrive. */
  function Run(t: Tab, ms: seq<Message>): Tab
    decreases |ms|
  {
    if ms == [] then t else Run(Handle(t, ms[0]), ms[1..])
  }

  /** The last message among `ms` that the handler applies. */
  function LastApplied(ms: seq<Message>): (r: Option<Message>)
    ensures r.Some? ==> Applies(r.value) && r.value in ms
    decreases |ms|
  {
    if ms == [] then None
    else if Applies(ms[|ms| - 1]) then Some(ms[|ms| - 1])
    else LastApplied(ms[..|ms| - 1])
  }

  /** The routes the applied messages among `ms` navigate to, in order. */
  function Routes(ms: seq<Message>): seq<string>
    decreases |ms|
  {
    if ms == [] then []
    else (if Applies(ms[0]) then [RouteAfter(ms[0])] else []) + Routes(ms[1..])
  }

  /** Logout: the session is emptied and the tab goes to the login screen. */
  lemma HandleLogout(t: Tab, m: Message)
    requires m.kind == "LOGOUT"
    ensures Handle(t, m) == Tab(InitialState(), t.navigation + [LoginRoute])
  {
  }

  /** Login with a payload: the session becomes the payload's, the tab goes to the tabs screen. */
  lemma HandleLogin(t: Tab, p: SessionPayload)
    ensures Handle(t, Message("LOGIN", Some(p))) == Tab(AuthState(p.user, p.token), t.navigation + [TabsRoute])
  {
  }

  /** Any other message changes nothing. */
  lemma HandleOther(t: Tab, m: Message)
    requires !Applies(m)
    ensures Handle(t, m) == t
  {
  }

  /** A tab that handles what `broadcastLogin(d)` posted ends where a local `setUser(d)` would. */
  lemma LoginRoundTrip(t: Tab, d: SessionPayload)
    ensures Handle(t, LoginMessage(Some(d))).session == Reduce(t.session, SetUser(d))
  {
  }

  /** A tab that handles what `broadcastLogout()` posted is logged out, whatever it held. */
  lemma LogoutConverges(t1: Tab, t2: Tab)
    ensures Handle(t1, LogoutMessage()).session == Handle(t2, LogoutMessage()).session == InitialState()
  {
  }

  /** Handling an applied message again keeps the session but logs the route again. */
  lemma ReapplyIdempotent(t: Tab, m: Message)
    requires Applies(m)
    ensures Handle(Handle(t, m), m).session == Handle(t, m).session
    ensures Handle(Handle(t, m), m).navigation == t.navigation + [RouteAfter(m), RouteAfter(m)]
  {
  }

  lemma {:induction false} RunSnoc(t: Tab, ms: seq<Message>, m: Message)
    ensures Run(t, ms + [m]) == Handle(Run(t, ms), m)
    decreases |ms|
  {
    if ms == [] {
      assert [m][1..] == [];
    } else {
      assert (ms + [m])[1..] == ms[1..] + [m];
      RunSnoc(Handle(t, ms[0]), ms[1..], m);
    }
  }

  /** Last applied wins: after any sequence, the session is the one the last
      applied message sets, or the initial one if no message applied. */
  lemma {:induction false} LastAppliedWins(t: Tab, ms: seq<Message>)
    ensures Run(t, ms).session == match LastApplied(ms)
                                  case None => t.session
                                  case Some(m) => SessionAfter(m)
    decreases |ms|
  {
    if ms != [] {
      var init, last := ms[..|ms| - 1], ms[|ms| - 1];
      assert ms == init + [last];
      RunSnoc(t, init, last);
      LastAppliedWins(t, init);
    }
  }

  /** The route log grows by exactly the routes of the applied messages. */
  lemma {:induction false} RunNavigation(t: Tab, ms: seq<Message>)
    ensures Run(t, ms).navigation == t.navigation + Routes(ms)
    decreases |ms|
  {
    if ms != [] {
      RunNavigation(Handle(t, ms[0]), ms[1..]);
      assert Handle(t, ms[0]).navigation
          == t.navigation + (if Applies(ms[0]) then [RouteAfter(ms[0])] else []);
    }
  }

  /** Paired sessions stay paired as long as every applied login carries a paired payload. */
  lemma {:induction false} RunKeepsPaired(t: Tab, ms: seq<Message>)
    requires Paired(t.session)
    requires forall i :: 0 <= i < |ms| && ms[i].kind == "LOGIN" && ms[i].payload.Some? ==>
               PayloadPaired(ms[i].payload.value)
    ensures Paired(Run(t, ms).session)
    decreases |ms|
  {
    if ms != [] {
      assert ms[0].kind == "LOGIN" && ms[0].payload.Some? ==> PayloadPaired(ms[0].payload.value);
      assert forall i :: 0 <= i < |ms[1..]| ==> ms[1..][i] == ms[i + 1];
      RunKeepsPaired(Handle(t, ms[0]), ms[1..]);
    }
  }
}
