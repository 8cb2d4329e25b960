/**
 * The client's authentication state. The initial state is read from the
 * browser's stored token and stored user (both strings, or absent); the
 * reducers update the state in place. Registration and login share the
 * same three reducers, so each is modelled once.
 */
module AuthSlice {
  import opened Values
  import opened AuthRoutes

  /** A plain copy of the state, as the initial-state builder returns it. */
  datatype AuthSnapshot = AuthSnapshot(
    user: Option<UserView>,
    token: Option<string>,
    isAuthenticated: bool,
    loading: bool,
    error: Option<string>)

  /**
   * getInitialState: an empty stored string counts as absent (it is falsy);
   * the session is authenticated exactly when a non-empty token is stored.
   * `parse` stands for JSON.parse of the stored user.
   */
  function InitialState(storedToken: Option<string>, storedUser: Option<string>, parse: string -> UserView): (s: AuthSnapshot)
    ensures s.isAuthenticated <==> s.token.Some?
    ensures s.token.Some? <==> storedToken.Some? && storedToken.value != ""
    ensures s.token.Some? ==> s.token == storedToken
    ensures s.user.Some? <==> storedUser.Some? && storedUser.value != ""
    ensures s.user.Some? ==> s.user.value == parse(storedUser.value)
    ensures !s.loading && s.error == None
  {
    var user := if storedUser.Some? && storedUser.value != "" then Some(parse(storedUser.value)) else None;
    var token := if storedToken.Some? && storedToken.value != "" then storedToken else None;
    AuthSnapshot(user, token, token.Some?, false, None)
  }

  /**
   * After a successful login the client stores the token and the
   * serialised user; when serialising and parsing round-trip, a reload
   * restores the same authenticated session, idle and without error.
   */
  lemma ReloadRestoresSession(token: string, user: UserView, stringify: UserView -> string, parse: string -> UserView)
    requires token != ""
    requires stringify(user) != "" && parse(stringify(user)) == user
    ensures InitialState(Some(token), Some(stringify(user)), parse)
         == AuthSnapshot(Some(user), Some(token), true, false, None)
  {
  }

  /** With nothing stored the session starts signed out. */
  lemma EmptyStorageSignedOut(parse: string -> UserView)
    ensures InitialState(None, None, parse) == AuthSnapshot(None, None, false, false, None)
    ensures InitialState(Some(""), Some(""), parse) == AuthSnapshot(None, None, false, false, None)
  {
  }

  class AuthState {
    var user: Option<UserView>
    var token: Option<string>
    var isAuthenticated: bool
    var loading: bool
    var error: Option<string>

    /** The flag always agrees with the presence of a token. */
    ghost predicate Valid()
      reads this
    {
      isAuthenticated <==> token.Some?
    }

    function Snapshot(): AuthSnapshot
      reads this
    {
      AuthSnapshot(user, token, isAuthenticated, loading, error)
    }

    constructor (storedToken: Option<string>, storedUser: Option<string>, parse: string -> UserView)
      ensures Valid()
      ensures Snapshot() == InitialState(storedToken, storedUser, parse)
    {
      var s := InitialState(storedToken, storedUser, parse);
      user := s.user;
      token := s.token;
      isAuthenticated := s.isAuthenticated;
      loading := s.loading;
      error := s.error;
    }

    /** logout: user and token cleared and the session signed out; loading and error stay. */
    method Logout()
      modifies this
      ensures Valid()
      ensures user == None && token == None && !isAuthenticated
      ensures loading == old(loading) && error == old(error)
    {
      user := None;
      token := None;
      isAuthenticated := false;
    }

    /** clearError: only the error changes. */
    method ClearError()
      requires Valid()
      modifies this
      ensures Valid()
      ensures Snapshot() == old(Snapshot()).(error := None)
    {
      error := None;
    }

    /** Register or login pending. */
    method Pending()
      requires Valid()
      modifies this
      ensures Valid()
      ensures Snapshot() == old(Snapshot()).(loading := true, error := None)
    {
      loading := true;
      error := None;
    }

    /**
     * Register or login fulfilled. The request only fulfils on a 2xx
     * reply, and the payload is that reply's body.
     */
    method Fulfilled(payload: AuthReply)
      requires payload.Authorized?
      modifies this
      ensures Valid()
      ensures !loading && isAuthenticated
      ensures user == Some(payload.user) && token == Some(payload.token)
      ensures error == old(error)
    {
      loading := false;
      user := Some(payload.user);
      token := Some(payload.token);
      isAuthenticated := true;
    }

    /** Register or login rejected: the session is left as it was. */
    method Rejected(payload: string)
      requires Valid()
      modifies this
      ensures Valid()
      ensures Snapshot() == old(Snapshot()).(loading := false, error := Some(payload))
    {
      loading := false;
      error := Some(payload);
    }
  }
}
