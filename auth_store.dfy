/**
 * The session store (app/modules/auth/store/auth-store.ts): who is signed
 * in, their token, the `isAuthenticated` flag, and the token the API client
 * attaches to requests. The client's token lives outside the store, so it
 * is a ghost field here.
 */
module AuthStore {
  import opened Js

  /** A staff account. The store's own interface has no `role`, but the
      permission hook reads `user?.role`, so the role is optional here. */
  datatype User = User(id: string, email: string, firstName: string, lastName: string, role: Option<string>)

  /** The store's fields together with the API client's token. */
  datatype Session = Session(user: Option<User>, token: Option<string>, isAuthenticated: bool, apiToken: Option<string>)

  /** The store before anyone signs in (and an API client without a token). */
  const Initial := Session(None, None, false, None)

  /** The store keeps its three fields in step: signed in, holding a token
      and holding a user are one and the same. */
  predicate Consistent(s: Session)
  {
    (s.isAuthenticated <==> s.token.Some?) && (s.token.Some? <==> s.user.Some?)
  }

  /** The API client sends the token the store holds. */
  predicate InSync(s: Session)
  {
    s.apiToken == s.token
  }

  /** The state `setAuth(user, token)` leaves. */
  function AfterSetAuth(s: Session, user: User, token: string): (r: Session)
    ensures Consistent(r) && InSync(r)
    ensures r.isAuthenticated && r.user == Some(user) && r.token == Some(token)
  {
    Session(Some(user), Some(token), true, Some(token))
  }

  /** The state `logout()` leaves, whatever the state before. */
  function AfterLogout(s: Session): (r: Session)
    ensures Consistent(r) && InSync(r)
    ensures !r.isAuthenticated && r.user.None? && r.token.None? && r.apiToken.None?
  {
    Session(None, None, false, None)
  }

  /** The state after the persisted fields are restored: they replace the
      store's, and the API client is given the restored token only when that
      token is truthy. */
  function AfterRehydrate(s: Session, user: Option<User>, token: Option<string>, isAuthenticated: bool): (r: Session)
    ensures r.user == user && r.token == token && r.isAuthenticated == isAuthenticated
    ensures r.apiToken == (if Truthy(token) then token else s.apiToken)
  {
    Session(user, token, isAuthenticated, if Truthy(token) then token else s.apiToken)
  }

  lemma InitialConsistent()
    ensures Consistent(Initial) && InSync(Initial)
    ensures Initial.user.None? && Initial.token.None? && !Initial.isAuthenticated
  {
  }

  /** Both operations keep the store consistent and the client in step, from any state. */
  lemma OperationsPreserveInvariant(s: Session, user: User, token: string)
    requires Consistent(s) && InSync(s)
    ensures Consistent(AfterSetAuth(s, user, token)) && InSync(AfterSetAuth(s, user, token))
    ensures Consistent(AfterLogout(s)) && InSync(AfterLogout(s))
  {
  }

  /** Logging out twice is logging out once. */
  lemma LogoutIdempotent(s: Session)
    ensures AfterLogout(AfterLogout(s)) == AfterLogout(s)
  {
  }

  /** Restoring what a consistent store saved, into a fresh page whose API
      client has no token yet, gives a consistent store whose client is in
      step unless the saved token was the empty string. */
  lemma RehydrateSavedState(saved: Session)
    requires Consistent(saved)
    ensures Consistent(AfterRehydrate(Initial, saved.user, saved.token, saved.isAuthenticated))
    ensures saved.token != Some("") ==>
              InSync(AfterRehydrate(Initial, saved.user, saved.token, saved.isAuthenticated))
  {
  }

  /** The store object. Its methods overwrite all three fields at once, as
      the store's `set` calls do. */
  class Store {
    var user: Option<User>
    var token: Option<string>
    var isAuthenticated: bool
    /** The token held by the API client. */
    ghost var apiToken: Option<string>

    ghost function State(): Session
      reads this
    {
      Session(user, token, isAuthenticated, apiToken)
    }

    constructor ()
      ensures State() == Initial
    {
      user, token, isAuthenticated := None, None, false;
      apiToken := None;
    }

    method SetAuth(u: User, t: string)
      modifies this
      ensures State() == AfterSetAuth(old(State()), u, t)
    {
      apiToken := Some(t);
      user, token, isAuthenticated := Some(u), Some(t), true;
    }

    method Logout()
      modifies this
      ensures State() == AfterLogout(old(State()))
    {
      apiToken := None;
      user, token, isAuthenticated := None, None, false;
    }

    /** The persist middleware's merge of the saved fields, followed by the
        rehydration hook. */
    method Rehydrate(u: Option<User>, t: Option<string>, authenticated: bool)
      modifies this
      ensures State() == AfterRehydrate(old(State()), u, t, authenticated)
    {
      user, token, isAuthenticated := u, t, authenticated;
      if Truthy(t) {
        apiToken := t;
      }
    }
  }
}
