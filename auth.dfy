/** The client's authentication session: the token in local storage, the
    signed-in user, and the authenticated and loading flags, changed by the
    start-up check of a stored token, by login and by logout. Each answer of
    the "current user" request is an input: `Some(user)` when it succeeds,
    `None` when it fails. */
module Auth {
  import opened Wrappers
  import opened ClientTypes

  datatype Session = Session(token: Option<string>, user: Option<User>, isAuthenticated: bool, isLoading: bool)

  /** `if (token)`: a missing and an empty token are both falsy. */
  predicate HasToken(s: Session) {
    s.token.Some? && s.token.value != ""
  }

  /** Only a signed-in session has a user, and only one with a token is
      signed in. */
  predicate Consistent(s: Session) {
    (s.user.Some? ==> s.isAuthenticated) && (s.isAuthenticated ==> s.token.Some?)
  }

  /** The state before the start-up check, given what storage holds. */
  function Initial(stored: Option<string>): Session {
    Session(stored, None, false, true)
  }

  /** The start-up check, given the answer for the stored token. */
  function AfterInit(s: Session, me: Option<User>): Session {
    if HasToken(s) then
      if me.Some? then s.(user := me, isAuthenticated := true, isLoading := false)
      else s.(token := None, isLoading := false)
    else s.(isLoading := false)
  }

  /** Login stores the token and signs in at once; the user is set only
      when the follow-up request succeeds. */
  function AfterLogin(s: Session, accessToken: string, me: Option<User>): Session {
    var signedIn := s.(token := Some(accessToken), isAuthenticated := true);
    if me.Some? then signedIn.(user := me) else signedIn
  }

  function AfterLogout(s: Session): Session {
    s.(token := None, user := None, isAuthenticated := false)
  }

  /** Start-up begins signed out and loading. */
  lemma InitialFacts(stored: Option<string>)
    ensures var s := Initial(stored);
      s.user.None? && !s.isAuthenticated && s.isLoading && Consistent(s)
  {
  }

  /** The three outcomes of the start-up check: no stored token stays signed
      out; a token the server accepts signs in with its user; a token it
      rejects is removed. Loading ends on every path. */
  lemma InitOutcomes(stored: Option<string>, me: Option<User>)
    ensures var s := AfterInit(Initial(stored), me);
      && !s.isLoading
      && Consistent(s)
      && (stored.None? || stored == Some("") ==> s == Initial(stored).(isLoading := false))
      && (stored.Some? && stored.value != "" && me.Some? ==>
            s.isAuthenticated && s.user == me && s.token == stored)
      && (stored.Some? && stored.value != "" && me.None? ==>
            !s.isAuthenticated && s.user.None? && s.token.None?)
  {
  }

  /** Login signs in with the given token whatever the request answers; if
      it fails the user stays what it was, so a fresh session is signed in
      without a user. */
  lemma LoginFacts(s: Session, accessToken: string, me: Option<User>)
    ensures var t := AfterLogin(s, accessToken, me);
      && t.isAuthenticated && t.token == Some(accessToken) && t.isLoading == s.isLoading
      && (me.Some? ==> t.user == me)
      && (me.None? ==> t.user == s.user)
      && (me.None? && s.user.None? ==> t.user.None?)
  {
  }

  /** Logout signs out, drops the token and the user, keeps the loading
      flag, and doing it twice is doing it once. */
  lemma LogoutFacts(s: Session)
    ensures var t := AfterLogout(s);
      && !t.isAuthenticated && t.token.None? && t.user.None? && t.isLoading == s.isLoading
      && AfterLogout(t) == t
  {
  }

  /** Login and logout keep a session consistent from any state; the
      start-up check does from a signed-out one. */
  lemma TransitionsKeepConsistent(s: Session, accessToken: string, me: Option<User>)
    requires Consistent(s)
    ensures Consistent(AfterLogin(s, accessToken, me))
    ensures Consistent(AfterLogout(s))
    ensures !s.isAuthenticated ==> Consistent(AfterInit(s, me))
  {
  }

  const OutsideProvider := "useAuth must be used within an AuthProvider"

  /** The context hook: the session inside the provider, an error outside. */
  function UseAuth(context: Option<Session>): (r: Result<Session, string>)
    ensures r.Err? <==> context.None?
    ensures r.Err? ==> r.error == OutsideProvider
    ensures r.Ok? ==> r.value == context.value
  {
    if context.Some? then Ok(context.value) else Err(OutsideProvider)
  }

  /** The provider's state; `token` is the `token` key of local storage. */
  class AuthSession {
    var token: Option<string>
    var user: Option<User>
    var isAuthenticated: bool
    var isLoading: bool

    function State(): Session
      reads this
    {
      Session(token, user, isAuthenticated, isLoading)
    }

    predicate Valid()
      reads this
    {
      Consistent(State())
    }

    constructor(stored: Option<string>)
      ensures State() == Initial(stored) && Valid()
    {
      token := stored;
      user := None;
      isAuthenticated := false;
      isLoading := true;
    }

    /** The start-up check, which finishes before the user can sign in. */
    method InitAuth(me: Option<User>)
      requires Valid() && isLoading && !isAuthenticated
      modifies this
      ensures State() == AfterInit(old(State()), me) && Valid()
    {
      if token.Some? && token.value != "" {
        if me.Some? {
          user := me;
          isAuthenticated := true;
        } else {
          token := None;
        }
      }
      isLoading := false;
    }

    method Login(accessToken: string, me: Option<User>)
      requires Valid()
      modifies this
      ensures State() == AfterLogin(old(State()), accessToken, me) && Valid()
    {
      token := Some(accessToken);
      isAuthenticated := true;
      if me.Some? {
        user := me;
      }
    }

    method Logout()
      requires Valid()
      modifies this
      ensures State() == AfterLogout(old(State())) && Valid()
    {
      token := None;
      user := None;
      isAuthenticated := false;
    }
  }
}
