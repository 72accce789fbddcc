/** The `auth` slice of the Redux store: the session `{user, token}`, its two
    reducers `setUser` and `logout`, and the selectors that read it. */
module AuthSlice {
  import opened Js

  /** The institution record attached to an admin user. */
  datatype InstituteDetails = InstituteDetails(
    id: int,
    instituteId: string,
    instituteName: string,
    instituteAddress: string,
    instituteEin: int,
    instituteEmail: string,
    instituteContact: string,
    instituteCategory: string,
    instituteType: string,
    instituteBoard: string,
    logo: string,
    instituteGateway: string,
    vendorId: int,
    isGatewayFee: bool)

  /** The signed-in admin's profile. */
  datatype AuthUser = AuthUser(
    name: string,
    email: string,
    mobile: string,
    status: string,
    institute: InstituteDetails)

  /** The slice's state. */
  datatype AuthState = AuthState(user: Option<AuthUser>, token: Option<string>)

  /** The `payload` object of a `setUser` action; a missing field is `None`. */
  datatype SessionPayload = SessionPayload(user: Option<AuthUser>, token: Option<string>)

  /** The two actions the slice handles. */
  datatype Action = SetUser(payload: SessionPayload) | Logout

  /** The state of the whole store, of which only the `auth` slice is modelled. */
  datatype RootState = RootState(auth: AuthState)

  function InitialState(): AuthState
  {
    AuthState(None, None)
  }

  /** The slice reducer: what the draft's fields hold after the action. */
  function Reduce(s: AuthState, a: Action): AuthState
  {
    match a
    case SetUser(p) => s.(user := p.user, token := p.token)
    case Logout => s.(user := None, token := None)
  }

  /** `useCurrentToken`. */
  function UseCurrentToken(root: RootState): Option<string>
  {
    root.auth.token
  }

  /** `useCurrentUser`. */
  function UseCurrentUser(root: RootState): Option<AuthUser>
  {
    root.auth.user
  }

  /** User and token are both present or both absent. */
  predicate Paired(s: AuthState)
  {
    s.user.None? <==> s.token.None?
  }

  predicate PayloadPaired(p: SessionPayload)
  {
    p.user.None? <==> p.token.None?
  }

  /** The slice as the store holds it: the draft whose fields the reducers assign. */
  class Session {
    var user: Option<AuthUser>
    var token: Option<string>

    function State(): AuthState
      reads this
    {
      AuthState(user, token)
    }

    constructor ()
      ensures State() == InitialState()
    {
      user := None;
      token := None;
    }

    method SetUser(payload: SessionPayload)
      modifies this
      ensures State() == Reduce(old(State()), Action.SetUser(payload))
      ensures user == payload.user && token == payload.token
    {
      var SessionPayload(u, t) := payload;
      user := u;
      token := t;
    }

    method Logout()
      modifies this
      ensures State() == Reduce(old(State()), Action.Logout)
      ensures user == None && token == None
    {
      user := None;
      token := None;
    }

    /** `store.dispatch(action)` as far as this slice sees it. */
    method Dispatch(a: Action)
      modifies this
      ensures State() == Reduce(old(State()), a)
    {
      match a
      case SetUser(p) => SetUser(p);
      case Logout => Logout();
    }
  }

  lemma InitialStateEmpty()
    ensures InitialState().user == None && InitialState().token == None
  {
  }

  /** `setUser` installs the payload's fields whatever the previous state was. */
  lemma SetUserOverwrites(s: AuthState, p: SessionPayload)
    ensures Reduce(s, SetUser(p)).user == p.user
    ensures Reduce(s, SetUser(p)).token == p.token
  {
  }

  /** `setUser` keeps nothing of the state it replaces. */
  lemma SetUserForgetsPrior(s1: AuthState, s2: AuthState, p: SessionPayload)
    ensures Reduce(s1, SetUser(p)) == Reduce(s2, SetUser(p))
  {
  }

  /** `logout` empties the session from any state, and doing it twice is doing it once. */
  lemma LogoutClears(s: AuthState)
    ensures Reduce(s, Logout) == InitialState()
    ensures Reduce(Reduce(s, Logout), Logout) == Reduce(s, Logout)
  {
  }

  lemma SetUserThenLogout(s: AuthState, p: SessionPayload)
    ensures Reduce(Reduce(s, SetUser(p)), Logout) == InitialState()
  {
  }

  /** The session is paired after `setUser` exactly when the payload is; `logout` always pairs it. */
  lemma PairingAfterActions(s: AuthState, p: SessionPayload)
    ensures Paired(Reduce(s, SetUser(p))) <==> PayloadPaired(p)
    ensures Paired(Reduce(s, Logout))
  {
  }

  /** The selectors read back what the reducers wrote. */
  lemma SelectorsObserveReducer(s: AuthState, p: SessionPayload)
    ensures UseCurrentToken(RootState(Reduce(s, SetUser(p)))) == p.token
    ensures UseCurrentUser(RootState(Reduce(s, SetUser(p)))) == p.user
    ensures UseCurrentToken(RootState(Reduce(s, Logout))) == None
    ensures UseCurrentUser(RootState(Reduce(s, Logout))) == None
  {
  }
}
